/**
 * The deploy driver: it checks the requested target names, collects the
 * lifecycle hooks and the prepare, deploy and release functions of each
 * target, and runs the five phases one after another, each phase one
 * function at a time in the order of the target names.
 */
module DeployIndex {
  import opened Wrappers
  import opened OMaps
  import opened GetProjectId

  /** The keys of `TARGETS`. */
  const DeployTargets: seq<string> := ["hosting", "database", "firestore", "functions", "storage"]

  /**
   * The names `TARGETS[name]` finds: its own keys, and the names it inherits
   * from `Object.prototype`.
   */
  const TargetLookupAsWritten: seq<string> := DeployTargets + ObjectPrototypeNames

  /**
   * Which of `prepare`, `deploy` and `release` a target module defines (the
   * target modules themselves are not part of this model).
   */
  datatype Capabilities = Capabilities(prepare: bool, deploy: bool, release: bool)

  /** What the target found for `name` defines: an inherited property defines none of the three. */
  function TargetCaps(name: string, caps: string -> Capabilities): (c: Capabilities)
    ensures name !in DeployTargets ==> c == Capabilities(false, false, false)
  {
    if name in DeployTargets then caps(name) else Capabilities(false, false, false)
  }

  /** One function a phase runs. */
  datatype Step =
    | Hook(target: string, phase: string)
    | Prepare(target: string)
    | Deploy(target: string)
    | Release(target: string)

  datatype Phases = Phases(
    predeploys: seq<Step>, prepares: seq<Step>, deploys: seq<Step>, releases: seq<Step>, postdeploys: seq<Step>)

  function InvalidTarget(name: string): string
  {
    name + " is not a valid deploy target"
  }

  /**
   * The phases the loop of `deploy` collects for `names`, or the error for
   * the first name outside `known`, the names the target lookup finds.
   */
  function PhasesOf(known: seq<string>, names: seq<string>, caps: string -> Capabilities): Result<Phases, string>
    decreases |names|
  {
    if names == [] then Ok(Phases([], [], [], [], []))
    else
      var init := names[..|names| - 1];
      var n := names[|names| - 1];
      match PhasesOf(known, init, caps)
      case Err(e) => Err(e)
      case Ok(p) =>
        if n !in known then Err(InvalidTarget(n))
        else Ok(AddTarget(p, n, TargetCaps(n, caps)))
  }

  /**
   * One iteration of the loop of `deploy`: the target's two hooks, and
   * whichever of prepare, deploy and release it defines.
   */
  function AddTarget(p: Phases, n: string, c: Capabilities): Phases
  {
    Phases(
      p.predeploys + [Hook(n, "predeploy")],
      if c.prepare then p.prepares + [Prepare(n)] else p.prepares,
      if c.deploy then p.deploys + [Deploy(n)] else p.deploys,
      if c.release then p.releases + [Release(n)] else p.releases,
      p.postdeploys + [Hook(n, "postdeploy")])
  }

  /** `PhasesOf` of a list with one more name. */
  lemma PhasesSnoc(known: seq<string>, names: seq<string>, n: string, caps: string -> Capabilities)
    ensures PhasesOf(known, names + [n], caps) ==
      match PhasesOf(known, names, caps)
      case Err(e) => Err(e)
      case Ok(p) =>
        if n !in known then Err(InvalidTarget(n))
        else Ok(Phases(
          p.predeploys + [Hook(n, "predeploy")],
          if TargetCaps(n, caps).prepare then p.prepares + [Prepare(n)] else p.prepares,
          if TargetCaps(n, caps).deploy then p.deploys + [Deploy(n)] else p.deploys,
          if TargetCaps(n, caps).release then p.releases + [Release(n)] else p.releases,
          p.postdeploys + [Hook(n, "postdeploy")]))
  {
    assert (names + [n])[..|names + [n]| - 1] == names;
  }

  /** Every target contributes its two hooks, in the order of the names. */
  lemma {:induction false} PhasesHooks(known: seq<string>, names: seq<string>, caps: string -> Capabilities)
    requires PhasesOf(known, names, caps).Ok?
    ensures var p := PhasesOf(known, names, caps).value;
      |p.predeploys| == |names| && |p.postdeploys| == |names| &&
      forall i :: 0 <= i < |names| ==>
        p.predeploys[i] == Hook(names[i], "predeploy") && p.postdeploys[i] == Hook(names[i], "postdeploy")
    decreases |names|
  {
    if names != [] {
      var init := names[..|names| - 1];
      var n := names[|names| - 1];
      PhasesSnoc(known, init, n, caps);
      assert init + [n] == names;
      PhasesHooks(known, init, caps);
      var p0 := PhasesOf(known, init, caps).value;
      var p := PhasesOf(known, names, caps).value;
      assert p.predeploys == p0.predeploys + [Hook(n, "predeploy")];
      assert p.postdeploys == p0.postdeploys + [Hook(n, "postdeploy")];
      forall i | 0 <= i < |names|
        ensures p.predeploys[i] == Hook(names[i], "predeploy") && p.postdeploys[i] == Hook(names[i], "postdeploy")
      {
        if i < |init| {
          assert names[i] == init[i];
        }
      }
    }
  }

  /** Only targets that define prepare, deploy or release contribute to those phases, and each of them does. */
  lemma {:induction false} PhasesSteps(known: seq<string>, names: seq<string>, caps: string -> Capabilities)
    requires PhasesOf(known, names, caps).Ok?
    ensures var p := PhasesOf(known, names, caps).value;
      (forall n :: Prepare(n) in p.prepares <==> n in names && TargetCaps(n, caps).prepare) &&
      (forall n :: Deploy(n) in p.deploys <==> n in names && TargetCaps(n, caps).deploy) &&
      (forall n :: Release(n) in p.releases <==> n in names && TargetCaps(n, caps).release) &&
      (forall s :: s in p.prepares ==> s.Prepare?) &&
      (forall s :: s in p.deploys ==> s.Deploy?) &&
      (forall s :: s in p.releases ==> s.Release?)
    decreases |names|
  {
    if names != [] {
      var init := names[..|names| - 1];
      var n := names[|names| - 1];
      assert forall m :: m in names <==> m in init || m == n by {
        assert names == init + [n];
      }
      PhasesSnoc(known, init, n, caps);
      assert init + [n] == names;
      PhasesSteps(known, init, caps);
    }
  }

  /**
   * The loop of `deploy` that pushes each target's functions onto the
   * phase lists, returning at the first name the target lookup does not find.
   */
  method CollectPhases(names: seq<string>, caps: string -> Capabilities) returns (r: Result<Phases, string>)
    ensures r == PhasesOf(TargetLookupAsWritten, names, caps)
  {
    var predeploys: seq<Step> := [];
    var prepares: seq<Step> := [];
    var deploys: seq<Step> := [];
    var releases: seq<Step> := [];
    var postdeploys: seq<Step> := [];
    var i := 0;
    while i < |names|
      invariant 0 <= i <= |names|
      invariant PhasesOf(TargetLookupAsWritten, names[..i], caps) == Ok(Phases(predeploys, prepares, deploys, releases, postdeploys))
    {
      var name := names[i];
      PhasesSnoc(TargetLookupAsWritten, names[..i], name, caps);
      assert names[..i] + [name] == names[..i + 1];
      if name !in TargetLookupAsWritten {
        PhasesErrStays(TargetLookupAsWritten, names[..i + 1], names[i + 1..], caps);
        assert names[..i + 1] + names[i + 1..] == names;
        return Err(InvalidTarget(name));
      }
      var c := TargetCaps(name, caps);
      ghost var before := Phases(predeploys, prepares, deploys, releases, postdeploys);
      predeploys := predeploys + [Hook(name, "predeploy")];
      if c.prepare {
        prepares := prepares + [Prepare(name)];
      }
      if c.deploy {
        deploys := deploys + [Deploy(name)];
      }
      if c.release {
        releases := releases + [Release(name)];
      }
      postdeploys := postdeploys + [Hook(name, "postdeploy")];
      assert Phases(predeploys, prepares, deploys, releases, postdeploys) == AddTarget(before, name, c);
      i := i + 1;
    }
    assert names[..|names|] == names;
    return Ok(Phases(predeploys, prepares, deploys, releases, postdeploys));
  }

  /** Once the names so far hold an unknown one, further names do not change the error. */
  lemma {:induction false} PhasesErrStays(known: seq<string>, names: seq<string>, more: seq<string>, caps: string -> Capabilities)
    requires PhasesOf(known, names, caps).Err?
    ensures PhasesOf(known, names + more, caps) == PhasesOf(known, names, caps)
    decreases |more|
  {
    if more != [] {
      var init := more[..|more| - 1];
      PhasesErrStays(known, names, init, caps);
      PhasesSnoc(known, names + init, more[|more| - 1], caps);
      assert names + init + [more[|more| - 1]] == names + more;
    } else {
      assert names + more == names;
    }
  }

  /** The phases are collected exactly when the lookup finds every name. */
  lemma {:induction false} PhasesValid(known: seq<string>, names: seq<string>, caps: string -> Capabilities)
    ensures PhasesOf(known, names, caps).Ok? <==> forall j :: 0 <= j < |names| ==> names[j] in known
    decreases |names|
  {
    if names != [] {
      var init := names[..|names| - 1];
      assert forall j :: 0 <= j < |init| ==> init[j] == names[j];
      PhasesValid(known, init, caps);
    }
  }

  /** The error is the one for the first name not found, however the list goes on after it. */
  lemma {:induction false} PhasesErrFirst(known: seq<string>, names: seq<string>, caps: string -> Capabilities, i: nat)
    requires i < |names| && names[i] !in known
    requires forall j :: 0 <= j < i ==> names[j] in known
    ensures PhasesOf(known, names, caps) == Err(InvalidTarget(names[i]))
    decreases |names|
  {
    var init := names[..|names| - 1];
    if i < |names| - 1 {
      assert forall j :: 0 <= j <= i ==> init[j] == names[j];
      PhasesErrFirst(known, init, caps, i);
    } else {
      assert forall j :: 0 <= j < |init| ==> init[j] == names[j];
      PhasesValid(known, init, caps);
    }
  }

  /**
   * As written, an inherited name such as "constructor" passes the lookup
   * and contributes its two lifecycle hooks and nothing else.
   */
  lemma InheritedTargetHooksOnly(caps: string -> Capabilities)
    ensures PhasesOf(TargetLookupAsWritten, ["constructor"], caps)
         == Ok(Phases([Hook("constructor", "predeploy")], [], [], [], [Hook("constructor", "postdeploy")]))
  {
    assert "constructor" in TargetLookupAsWritten by {
      assert TargetLookupAsWritten[|DeployTargets|] == "constructor";
    }
    assert TargetCaps("constructor", caps) == Capabilities(false, false, false);
    var names := ["constructor"];
    assert names[..0] == [];
    var e: seq<Step> := [];
    assert e + [Hook("constructor", "predeploy")] == [Hook("constructor", "predeploy")];
    assert e + [Hook("constructor", "postdeploy")] == [Hook("constructor", "postdeploy")];
  }

  /** With the lookup evidently intended, only the five deploy targets are accepted. */
  lemma TargetLookupCorrected(names: seq<string>, caps: string -> Capabilities)
    ensures PhasesOf(DeployTargets, names, caps).Ok? <==> forall j :: 0 <= j < |names| ==> names[j] in DeployTargets
    ensures PhasesOf(DeployTargets, names, caps).Ok? ==> PhasesOf(TargetLookupAsWritten, names, caps) == PhasesOf(DeployTargets, names, caps)
  {
    PhasesValid(DeployTargets, names, caps);
    if PhasesOf(DeployTargets, names, caps).Ok? {
      PhasesAgree(names, caps);
    }
  }

  /** The intended lookup refuses "constructor". */
  lemma InheritedTargetRefusedCorrected(caps: string -> Capabilities)
    ensures PhasesOf(DeployTargets, ["constructor"], caps) == Err(InvalidTarget("constructor"))
  {
    var names := ["constructor"];
    assert names[..0] == [];
  }

  /** On names the intended lookup finds, the lookup as written collects the same phases. */
  lemma {:induction false} PhasesAgree(names: seq<string>, caps: string -> Capabilities)
    requires forall j :: 0 <= j < |names| ==> names[j] in DeployTargets
    ensures PhasesOf(TargetLookupAsWritten, names, caps) == PhasesOf(DeployTargets, names, caps)
    decreases |names|
  {
    if names != [] {
      var init := names[..|names| - 1];
      assert forall j :: 0 <= j < |init| ==> init[j] == names[j];
      PhasesAgree(init, caps);
    }
  }

  // ---------------------------------------------------------------- _chain

  /**
   * `_chain(fns, ...)`: run the functions one at a time, stopping at the
   * first that rejects (`fails`); an empty list resolves at once. The
   * result is the functions that ran and whether the chain resolved.
   */
  function Chain(fns: seq<Step>, fails: Step -> bool): (seq<Step>, bool)
    decreases |fns|
  {
    if fns == [] then ([], true)
    else if fails(fns[0]) then ([fns[0]], false)
    else
      var rest := Chain(fns[1..], fails);
      ([fns[0]] + rest.0, rest.1)
  }

  /**
   * A chain resolves after running every function when none rejects;
   * otherwise it runs the functions up to and including the first that
   * rejects, and no more.
   */
  lemma {:induction false} ChainStops(fns: seq<Step>, fails: Step -> bool)
    ensures var r := Chain(fns, fails);
      (r.1 <==> forall k :: 0 <= k < |fns| ==> !fails(fns[k])) &&
      (r.1 ==> r.0 == fns) &&
      (!r.1 ==> (0 < |r.0| <= |fns| && r.0 == fns[..|r.0|] && fails(r.0[|r.0| - 1]) &&
                 forall k :: 0 <= k < |r.0| - 1 ==> !fails(r.0[k])))
    decreases |fns|
  {
    if fns != [] && !fails(fns[0]) {
      ChainStops(fns[1..], fails);
      var rest := Chain(fns[1..], fails);
      assert forall k :: 1 <= k < |fns| ==> fns[k] == fns[1..][k - 1];
      if !rest.1 {
        assert [fns[0]] + rest.0 == fns[..|rest.0| + 1];
      }
    }
  }

  /** Chaining `a` and then, if it resolved, `b` is chaining `a + b`. */
  lemma {:induction false} ChainThen(a: seq<Step>, b: seq<Step>, fails: Step -> bool)
    ensures var ca := Chain(a, fails);
      Chain(a + b, fails) == if ca.1 then (ca.0 + Chain(b, fails).0, Chain(b, fails).1) else ca
    decreases |a|
  {
    if a != [] {
      assert (a + b)[1..] == a[1..] + b;
      assert (a + b)[0] == a[0];
      ChainThen(a[1..], b, fails);
      var rest := Chain(a[1..], fails);
      assert [a[0]] + rest.0 + Chain(b, fails).0 == [a[0]] + (rest.0 + Chain(b, fails).0);
    } else {
      assert a + b == b;
      assert [] + Chain(b, fails).0 == Chain(b, fails).0;
    }
  }

  /** The phases run one after another, each as a chain; a failing phase stops the rest. */
  function RunPhases(phases: seq<seq<Step>>, fails: Step -> bool): (seq<Step>, bool)
    decreases |phases|
  {
    if phases == [] then ([], true)
    else
      var c := Chain(phases[0], fails);
      if !c.1 then c
      else
        var rest := RunPhases(phases[1..], fails);
        (c.0 + rest.0, rest.1)
  }

  /** All steps of the phases, in order. */
  function Flatten(phases: seq<seq<Step>>): seq<Step>
    decreases |phases|
  {
    if phases == [] then [] else phases[0] + Flatten(phases[1..])
  }

  /** Running the phases in turn is one chain over all their steps. */
  lemma {:induction false} RunPhasesIsChain(phases: seq<seq<Step>>, fails: Step -> bool)
    ensures RunPhases(phases, fails) == Chain(Flatten(phases), fails)
    decreases |phases|
  {
    if phases != [] {
      RunPhasesIsChain(phases[1..], fails);
      ChainThen(phases[0], Flatten(phases[1..]), fails);
    }
  }

  // ---------------------------------------------------------------- deploy

  /** What `deploy` resolves to for hosting: one version, or the list of them. */
  datatype HostingResult = OneVersion(version: string) | Versions(versions: seq<string>)

  datatype DeployOutcome =
    | NoProject(error: ProjectError)
    | Invalid(message: string)
    | Failed(ran: seq<Step>)
    | Done(ran: seq<Step>, hosting: Option<HostingResult>)

  /**
   * `deploy(targetNames, options)`: resolve the project (its error is thrown
   * before anything else), check and collect the targets, run the phases in
   * order, and report the hosting versions (`versions`: the versions the
   * hosting functions recorded) when hosting was deployed.
   */
  function RunDeploy(names: seq<string>, project: Option<string>, aliases: OMap<string>,
                     caps: string -> Capabilities, fails: Step -> bool, versions: seq<string>): (r: DeployOutcome)
    ensures r.NoProject? <==> !HasProject(project)
    ensures HasProject(project) ==> (r.Invalid? <==> PhasesOf(TargetLookupAsWritten, names, caps).Err?)
    ensures r.Done? ==> ("hosting" in names <==> r.hosting.Some?)
    ensures r.Done? && r.hosting.Some? ==>
      (|versions| == 1 ==> r.hosting.value == OneVersion(versions[0])) &&
      (|versions| != 1 ==> r.hosting.value == Versions(versions))
  {
    match GetProjectId.GetProjectId(project, aliases, false)
    case Err(e) => NoProject(e)
    case Ok(_) =>
      match PhasesOf(TargetLookupAsWritten, names, caps)
      case Err(m) => Invalid(m)
      case Ok(p) =>
        var c := RunPhases(StepLists(p), fails);
        if !c.1 then Failed(c.0)
        else
          var hosting := if "hosting" in names then
            Some(if |versions| == 1 then OneVersion(versions[0]) else Versions(versions))
          else None;
          Done(c.0, hosting)
  }

  /** The five phases, in the order `deploy` runs them. */
  function StepLists(p: Phases): seq<seq<Step>>
  {
    [p.predeploys, p.prepares, p.deploys, p.releases, p.postdeploys]
  }

  /** All steps of the phases, in order. */
  function AllSteps(p: Phases): seq<Step>
  {
    p.predeploys + p.prepares + p.deploys + p.releases + p.postdeploys
  }

  /**
   * The phases run as one chain of predeploy, prepare, deploy, release and
   * postdeploy functions: what ran is the prefix of that order up to the
   * first failure, or all of it.
   */
  lemma DeployRunsPhasesInOrder(names: seq<string>, project: Option<string>, aliases: OMap<string>,
                                caps: string -> Capabilities, fails: Step -> bool, versions: seq<string>)
    requires HasProject(project) && PhasesOf(TargetLookupAsWritten, names, caps).Ok?
    ensures var r := RunDeploy(names, project, aliases, caps, fails, versions);
      var c := Chain(AllSteps(PhasesOf(TargetLookupAsWritten, names, caps).value), fails);
      (r.Done? <==> c.1) && (r.Done? || r.Failed?) && r.ran == c.0
  {
    var p := PhasesOf(TargetLookupAsWritten, names, caps).value;
    RunPhasesIsChain(StepLists(p), fails);
    FlattenFive(p);
  }

  lemma FlattenFive(p: Phases)
    ensures Flatten(StepLists(p)) == AllSteps(p)
  {
    var ls := StepLists(p);
    assert ls[1..][1..][1..][1..][1..] == [];
    assert Flatten(ls[1..][1..][1..][1..]) == p.postdeploys;
    assert Flatten(ls[1..][1..][1..]) == p.releases + p.postdeploys;
    assert Flatten(ls[1..][1..]) == p.deploys + p.releases + p.postdeploys;
    assert Flatten(ls[1..]) == p.prepares + p.deploys + p.releases + p.postdeploys;
  }

  /** A name the target lookup does not find stops `deploy` before any phase runs. */
  lemma InvalidRunsNothing(names: seq<string>, project: Option<string>, aliases: OMap<string>,
                           caps: string -> Capabilities, fails: Step -> bool, versions: seq<string>, i: nat)
    requires HasProject(project) && i < |names| && names[i] !in TargetLookupAsWritten
    ensures !RunDeploy(names, project, aliases, caps, fails, versions).Done? &&
      !RunDeploy(names, project, aliases, caps, fails, versions).Failed?
  {
    PhasesValid(TargetLookupAsWritten, names, caps);
  }

  /**
   * As written, deploying "constructor" completes after running only its
   * two lifecycle hooks, when neither fails.
   */
  lemma InheritedTargetDeploys(project: Option<string>, aliases: OMap<string>,
                               caps: string -> Capabilities, fails: Step -> bool, versions: seq<string>)
    requires HasProject(project)
    requires !fails(Hook("constructor", "predeploy")) && !fails(Hook("constructor", "postdeploy"))
    ensures RunDeploy(["constructor"], project, aliases, caps, fails, versions)
         == Done([Hook("constructor", "predeploy"), Hook("constructor", "postdeploy")], None)
  {
    var pre, post := Hook("constructor", "predeploy"), Hook("constructor", "postdeploy");
    InheritedTargetHooksOnly(caps);
    HooksOnlySteps(pre, post);
    DeployRunsPhasesInOrder(["constructor"], project, aliases, caps, fails, versions);
    ChainStops([pre, post], fails);
  }

  lemma HooksOnlySteps(pre: Step, post: Step)
    ensures AllSteps(Phases([pre], [], [], [], [post])) == [pre, post]
  {
    assert [pre] + [] + [] + [] + [post] == [pre, post];
  }
}
