/**
 * `functions:config:clone`: copy runtime-config variables from one project to
 * another, either the configs and variables named by `--only` keys, or every
 * config except the reserved namespace and the `--except` keys.
 */
module FunctionsConfigClone {
  import opened Wrappers
  import opened Strs
  import opened OMaps
  import opened Json
  import opened FunctionsConfig

  // ---------------------------------------------------------------- prefixes

  /** `_matchPrefix(short, long)`: after the length check, `_.reduce` of the element-wise comparison. */
  function MatchPrefix(short: seq<string>, long: seq<string>): (r: bool)
    ensures r <==> |short| <= |long| && long[..|short|] == short
  {
    |short| <= |long| && MatchUpTo(short, long, |short|)
  }

  /** The reduction of `_matchPrefix` after its first `n` steps. */
  function MatchUpTo(short: seq<string>, long: seq<string>, n: nat): (r: bool)
    requires n <= |short| <= |long|
    ensures r <==> short[..n] == long[..n]
  {
    if n == 0 then true
    else
      assert short[..n] == short[..n - 1] + [short[n - 1]];
      assert long[..n] == long[..n - 1] + [long[n - 1]];
      MatchUpTo(short, long, n - 1) && short[n - 1] == long[n - 1]
  }

  // ----------------------------------------------------------------- except

  /** The property path lodash reads from a dotted key. */
  function PathOf(key: string): seq<string>
  {
    Split(key, '.')
  }

  /** The value after unsetting the keys of `except` one after the other. */
  function UnsetAll(json: Json, except: seq<string>): (r: Json)
    ensures r.JObj? <==> json.JObj?
    decreases |except|
  {
    if except == [] then json
    else UnsetPath(UnsetAll(json, except[..|except| - 1]), PathOf(except[|except| - 1]))
  }

  /** `_applyExcept(json, except)`: `_.unset` each key in turn. */
  method ApplyExcept(json: Json, except: seq<string>) returns (out: Json)
    ensures out == UnsetAll(json, except)
  {
    out := json;
    var i := 0;
    while i < |except|
      invariant 0 <= i <= |except|
      invariant out == UnsetAll(json, except[..i])
    {
      assert except[..i + 1][..i] == except[..i];
      out := UnsetPath(out, PathOf(except[i]));
      i := i + 1;
    }
    assert except[..|except|] == except;
  }

  /** `_.unset` never makes a missing path appear. */
  lemma {:induction false} UnsetKeepsAbsent(j: Json, p: seq<string>, q: seq<string>)
    requires GetPath(j, q) == None
    ensures GetPath(UnsetPath(j, p), q) == None
    decreases |p|
  {
    if p != [] && j.JObj? && q != [] {
      if |p| == 1 {
        RemoveGet(j.props, p[0], q[0]);
      } else {
        match Get(j.props, p[0])
        case None =>
        case Some(c) =>
          if c.JObj? {
            PutGet(j.props, p[0], UnsetPath(c, p[1..]), q[0]);
            if p[0] == q[0] {
              UnsetKeepsAbsent(c, p[1..], q[1..]);
            }
          }
      }
    }
  }

  /** After `_applyExcept` every except key reads as `undefined`. */
  lemma {:induction false} ApplyExceptRemoves(json: Json, except: seq<string>, i: nat)
    requires i < |except|
    ensures GetPath(UnsetAll(json, except), PathOf(except[i])) == None
    decreases |except|
  {
    var init := except[..|except| - 1];
    if i == |except| - 1 {
      UnsetGet(UnsetAll(json, init), PathOf(except[i]));
    } else {
      assert init[i] == except[i];
      ApplyExceptRemoves(json, init, i);
      UnsetKeepsAbsent(UnsetAll(json, init), PathOf(except[|except| - 1]), PathOf(except[i]));
    }
  }

  /** `_applyExcept` leaves every path that parts from all except keys as it was. */
  lemma {:induction false} ApplyExceptKeepsOthers(json: Json, except: seq<string>, q: seq<string>)
    requires forall i :: 0 <= i < |except| ==> Diverge(PathOf(except[i]), q)
    ensures GetPath(UnsetAll(json, except), q) == GetPath(json, q)
    decreases |except|
  {
    if except != [] {
      var init := except[..|except| - 1];
      assert forall i :: 0 <= i < |init| ==> init[i] == except[i];
      ApplyExceptKeepsOthers(json, init, q);
      UnsetElsewhere(UnsetAll(json, init), PathOf(except[|except| - 1]), q);
    }
  }

  // ------------------------------------------------------- configs, variables

  /** Why a clone fails: a reserved namespace, or a variable name the id parser cannot read. */
  datatype CloneError = ReservedNamespace(ns: string) | BadVariableName(name: string) | Refused(message: string)

  /** The resource name of config `configId` of `projectId`. */
  function ConfigName(projectId: string, configId: string): string
  {
    Join(["projects", projectId, "configs", configId], "/")
  }

  /**
   * `_cloneVariable(varName, toProject)`: the variable's text written under
   * the ids parsed from its name; `text` is what reading the variable gives.
   */
  function CloneVariable(varName: string, text: string): (r: Result<VarSet, CloneError>)
    ensures r.Err? <==> VarNameToIds(varName).None?
    ensures r.Err? ==> r.error == BadVariableName(varName)
    ensures r.Ok? ==> r.value == VarSet(VarNameToIds(varName).value.config, VarNameToIds(varName).value.variable, JStr(text))
  {
    match VarNameToIds(varName)
    case None => Err(BadVariableName(varName))
    case Some(ids) => Ok(VarSet(ids.config, ids.variable, JStr(text)))
  }

  /**
   * The variables of a config whose id segments start with `prefix`, in
   * listing order; the first name the id parser cannot read throws.
   */
  function Selected(prefix: seq<string>, names: seq<string>): (r: Result<seq<string>, CloneError>)
    ensures r.Ok? <==> forall n :: n in names ==> VarNameToIds(n).Some?
    ensures r.Err? ==> r.error.BadVariableName? && r.error.name in names && VarNameToIds(r.error.name).None?
    ensures r.Ok? ==> forall n :: n in r.value <==>
      n in names && MatchPrefix(prefix, Split(VarNameToIds(n).value.variable, '/'))
    decreases |names|
  {
    if names == [] then Ok([])
    else
      var init := names[..|names| - 1];
      var last := names[|names| - 1];
      assert forall n :: n in names <==> n in init || n == last by {
        assert names == init + [last];
      }
      match Selected(prefix, init)
      case Err(e) => Err(e)
      case Ok(sel) =>
        match VarNameToIds(last)
        case None => Err(BadVariableName(last))
        case Some(ids) =>
          if MatchPrefix(prefix, Split(ids.variable, '/')) then Ok(sel + [last]) else Ok(sel)
  }

  /**
   * The listed names the id parser can read whose id segments start with
   * `prefix`, in listing order.
   */
  function Matches(prefix: seq<string>, names: seq<string>): (r: seq<string>)
    ensures |r| <= |names|
    ensures forall n :: n in r <==>
      n in names && VarNameToIds(n).Some? && MatchPrefix(prefix, Split(VarNameToIds(n).value.variable, '/'))
    decreases |names|
  {
    if names == [] then []
    else
      var init := names[..|names| - 1];
      var last := names[|names| - 1];
      assert forall n :: n in names <==> n in init || n == last by {
        assert names == init + [last];
      }
      var sel := Matches(prefix, init);
      match VarNameToIds(last)
      case None => sel
      case Some(ids) => if MatchPrefix(prefix, Split(ids.variable, '/')) then sel + [last] else sel
  }

  /** The position of the first listed name the id parser cannot read, or the length of the listing. */
  function FirstUnreadable(names: seq<string>): (k: nat)
    ensures k <= |names|
    ensures forall i :: 0 <= i < k ==> VarNameToIds(names[i]).Some?
    ensures k < |names| ==> VarNameToIds(names[k]).None?
    decreases |names|
  {
    if names == [] then 0
    else
      var init := names[..|names| - 1];
      var k := FirstUnreadable(init);
      if k < |init| then k
      else if VarNameToIds(names[|names| - 1]).None? then |init|
      else |names|
  }

  /**
   * The selection fails exactly at the first unreadable name; up to it, it
   * keeps the matching names.
   */
  lemma {:induction false} SelectedIsMatches(prefix: seq<string>, names: seq<string>)
    ensures var k := FirstUnreadable(names);
      Selected(prefix, names) == if k == |names| then Ok(Matches(prefix, names)) else Err(BadVariableName(names[k]))
    decreases |names|
  {
    if names != [] {
      var init := names[..|names| - 1];
      SelectedIsMatches(prefix, init);
    }
  }

  /**
   * The listing loop of `_cloneConfigOrVariable`: collect the variables whose
   * ids match the key's remaining parts. `started` is what was collected when
   * the loop ended, whether it finished or threw: the copies already started.
   */
  method SelectVariables(prefix: seq<string>, names: seq<string>)
    returns (r: Result<seq<string>, CloneError>, started: seq<string>)
    ensures r == Selected(prefix, names)
    ensures started == Matches(prefix, names[..FirstUnreadable(names)])
    ensures r.Ok? ==> r.value == started
  {
    var picked: seq<string> := [];
    var i := 0;
    while i < |names|
      invariant 0 <= i <= |names|
      invariant i <= FirstUnreadable(names)
      invariant Selected(prefix, names[..i]) == Ok(picked)
      invariant picked == Matches(prefix, names[..i])
    {
      assert names[..i + 1][..i] == names[..i];
      match VarNameToIds(names[i]) {
        case None =>
          assert Selected(prefix, names[..i + 1]) == Err(BadVariableName(names[i]));
          SelectedStops(prefix, names, i + 1);
          return Err(BadVariableName(names[i])), picked;
        case Some(ids) =>
          if MatchPrefix(prefix, Split(ids.variable, '/')) {
            picked := picked + [names[i]];
          }
      }
      i := i + 1;
    }
    assert names[..|names|] == names;
    r, started := Ok(picked), picked;
  }

  /** Once a prefix of the listing fails, the whole listing fails with the same error. */
  lemma {:induction false} SelectedStops(prefix: seq<string>, names: seq<string>, i: nat)
    requires i <= |names| && Selected(prefix, names[..i]).Err?
    ensures Selected(prefix, names) == Selected(prefix, names[..i])
    decreases |names| - i
  {
    if i < |names| {
      assert names[..i + 1][..i] == names[..i];
      SelectedStops(prefix, names, i + 1);
    } else {
      assert names[..i] == names;
    }
  }

  /** The reserved-namespace list `_cloneConfigOrVariable` consults: its own module's, which is never assigned. */
  const GuardListAsWritten: seq<string> := []

  /**
   * `_cloneConfigOrVariable(key, fromProject, toProject)` with `reserved` as
   * the list the guard reads: a one-part key names a whole config, so all its
   * variables; a longer key names the variables whose id segments start with
   * its remaining parts. `list` lists the variable names of a config.
   */
  function CloneSelection(reserved: seq<string>, key: string, fromProject: string,
                          list: string -> seq<string>): (r: Result<seq<string>, CloneError>)
    ensures r.Err? && r.error.ReservedNamespace? <==> Split(key, '.')[0] in reserved
    ensures r.Err? && r.error.ReservedNamespace? ==> r.error.ns == Split(key, '.')[0]
    ensures '.' !in key && key !in reserved ==> r == Ok(list(ConfigName(fromProject, key)))
    ensures '.' in key && Split(key, '.')[0] !in reserved ==>
      r == Selected(Split(key, '.')[1..], list(ConfigName(fromProject, Split(key, '.')[0])))
  {
    var parts := Split(key, '.');
    if parts[0] in reserved then Err(ReservedNamespace(parts[0]))
    else
      var configName := ConfigName(fromProject, parts[0]);
      if |parts| == 1 then Ok(list(configName))
      else Selected(parts[1..], list(configName))
  }

  /** As written, the guard never refuses a key. */
  lemma GuardNeverFiresAsWritten(key: string, fromProject: string, list: string -> seq<string>)
    ensures var r := CloneSelection(GuardListAsWritten, key, fromProject, list);
      !(r.Err? && r.error.ReservedNamespace?)
  {
  }

  /** As written, the reserved "firebase" config is cloned like any other. */
  lemma ReservedClonedAsWritten(fromProject: string, list: string -> seq<string>)
    ensures CloneSelection(GuardListAsWritten, "firebase", fromProject, list) == Ok(list(ConfigName(fromProject, "firebase")))
  {
    assert '.' !in "firebase";
  }

  /** With the reserved list the guard evidently means to read, exactly the keys in the "firebase" namespace are refused. */
  lemma GuardCorrected(key: string, fromProject: string, list: string -> seq<string>)
    ensures var r := CloneSelection(ReservedNamespaces, key, fromProject, list);
      (r.Err? && r.error.ReservedNamespace?) <==> Split(key, '.')[0] == "firebase"
  {
  }

  /**
   * The variables whose copy `_cloneConfigOrVariable` starts with `reserved`
   * as the list the guard reads: none for a refused key, the whole config for
   * a one-part key, and otherwise the matching names listed before the first
   * unreadable one, since a copy is started as soon as its name matches.
   */
  function Started(reserved: seq<string>, key: string, fromProject: string,
                   list: string -> seq<string>): (r: seq<string>)
    ensures Split(key, '.')[0] in reserved ==> r == []
    ensures '.' !in key && key !in reserved ==> r == list(ConfigName(fromProject, key))
    ensures '.' in key && Split(key, '.')[0] !in reserved ==>
      var names := list(ConfigName(fromProject, Split(key, '.')[0]));
      r == Matches(Split(key, '.')[1..], names[..FirstUnreadable(names)])
  {
    var parts := Split(key, '.');
    if parts[0] in reserved then []
    else
      var names := list(ConfigName(fromProject, parts[0]));
      if |parts| == 1 then names
      else Matches(parts[1..], names[..FirstUnreadable(names)])
  }

  /** A selection that succeeds starts exactly the copies it selects. */
  lemma StartedOnSuccess(reserved: seq<string>, key: string, fromProject: string, list: string -> seq<string>)
    requires CloneSelection(reserved, key, fromProject, list).Ok?
    ensures Started(reserved, key, fromProject, list) == CloneSelection(reserved, key, fromProject, list).value
  {
    var parts := Split(key, '.');
    if |parts| > 1 {
      var names := list(ConfigName(fromProject, parts[0]));
      SelectedIsMatches(parts[1..], names);
      assert names[..|names|] == names;
    }
  }

  /**
   * `_cloneConfigOrVariable`, whose guard reads the never-assigned list: the
   * test can never succeed, so the body goes straight to the listing.
   */
  method CloneConfigOrVariable(key: string, fromProject: string, list: string -> seq<string>)
    returns (r: Result<seq<string>, CloneError>, started: seq<string>)
    ensures r == CloneSelection(GuardListAsWritten, key, fromProject, list)
    ensures started == Started(GuardListAsWritten, key, fromProject, list)
    ensures !(r.Err? && r.error.ReservedNamespace?)
  {
    var parts := Split(key, '.');
    var configName := ConfigName(fromProject, parts[0]);
    if |parts| == 1 {
      return Ok(list(configName)), list(configName);
    }
    r, started := SelectVariables(parts[1..], list(configName));
  }

  // ------------------------------------------------------------------ clone

  /** The writes a clone issued and the failure it reports, if any. */
  datatype Cloned = Cloned(writes: seq<VarSet>, failure: Option<CloneError>)

  /**
   * The writes of the selected variables that can be read, in listing
   * order, and the first that cannot.
   */
  function VariableWrites(names: seq<string>, texts: string -> string): (c: Cloned)
    ensures c.failure.None? <==> forall n :: n in names ==> VarNameToIds(n).Some?
    ensures c.failure.Some? ==> c.failure.value.BadVariableName? && c.failure.value.name in names
    ensures |c.writes| <= |names|
    ensures c.failure.None? ==> (|c.writes| == |names| &&
      forall i :: 0 <= i < |names| ==> CloneVariable(names[i], texts(names[i])) == Ok(c.writes[i]))
    decreases |names|
  {
    if names == [] then Cloned([], None)
    else
      var rest := VariableWrites(names[1..], texts);
      assert forall n :: n in names <==> n == names[0] || n in names[1..];
      assert forall i :: 1 <= i < |names| ==> names[i] == names[1..][i - 1];
      match CloneVariable(names[0], texts(names[0]))
      case Ok(w) => Cloned([w] + rest.writes, rest.failure)
      case Err(e) => Cloned(rest.writes, Some(e))
  }

  /**
   * The `--only` branch with `reserved` as the list the guard reads: each
   * key's selection, then each selected variable copied. Every copy proceeds
   * on its own, so a bad variable does not stop the others, and copies
   * started before a key's listing throws go ahead; a refused key throws
   * before the later keys start.
   */
  function CloneOnly(reserved: seq<string>, keys: seq<string>, fromProject: string, list: string -> seq<string>,
                     texts: string -> string): (c: Cloned)
    ensures forall k :: 0 <= k < |keys| && Split(keys[k], '.')[0] in reserved ==> c.failure.Some?
    ensures c.failure.None? ==> forall k :: 0 <= k < |keys| ==> CloneSelection(reserved, keys[k], fromProject, list).Ok?
    decreases |keys|
  {
    if keys == [] then Cloned([], None)
    else
      assert forall k :: 1 <= k < |keys| ==> keys[k] == keys[1..][k - 1];
      var rest := CloneOnly(reserved, keys[1..], fromProject, list, texts);
      var mine := VariableWrites(Started(reserved, keys[0], fromProject, list), texts).writes;
      match CloneSelection(reserved, keys[0], fromProject, list)
      case Err(e) => if e.ReservedNamespace? then Cloned([], Some(e)) else Cloned(mine + rest.writes, Some(e))
      case Ok(names) =>
        var failure := VariableWrites(names, texts).failure;
        Cloned(mine + rest.writes, if failure.Some? then failure else rest.failure)
  }

  /** A single selected key clones exactly the variables it selects. */
  lemma CloneOnlySingle(reserved: seq<string>, key: string, fromProject: string, list: string -> seq<string>,
                        texts: string -> string, names: seq<string>)
    requires CloneSelection(reserved, key, fromProject, list) == Ok(names)
    ensures CloneOnly(reserved, [key], fromProject, list, texts) == VariableWrites(names, texts)
  {
    StartedOnSuccess(reserved, key, fromProject, list);
    var mine := VariableWrites(names, texts);
    assert [key][1..] == [];
    assert mine.writes + [] == mine.writes;
  }

  /**
   * A single key whose listing holds an unreadable name fails with that name,
   * yet copies every matching variable listed before it.
   */
  lemma CloneOnlySingleUnreadable(reserved: seq<string>, key: string, fromProject: string,
                                  list: string -> seq<string>, texts: string -> string)
    requires '.' in key && Split(key, '.')[0] !in reserved
    requires var names := list(ConfigName(fromProject, Split(key, '.')[0]));
      FirstUnreadable(names) < |names|
    ensures var names := list(ConfigName(fromProject, Split(key, '.')[0]));
      var before := Matches(Split(key, '.')[1..], names[..FirstUnreadable(names)]);
      var c := CloneOnly(reserved, [key], fromProject, list, texts);
      c.failure == Some(BadVariableName(names[FirstUnreadable(names)])) &&
      |c.writes| == |before| &&
      forall i :: 0 <= i < |before| ==> CloneVariable(before[i], texts(before[i])) == Ok(c.writes[i])
  {
    var parts := Split(key, '.');
    var names := list(ConfigName(fromProject, parts[0]));
    SelectedIsMatches(parts[1..], names);
    var before := Matches(parts[1..], names[..FirstUnreadable(names)]);
    assert forall n :: n in before ==> VarNameToIds(n).Some?;
    assert [key][1..] == [];
    var mine := VariableWrites(before, texts);
    assert mine.writes + [] == mine.writes;
  }

  /** As written, `--only firebase` copies every variable of the reserved config. */
  lemma CloneOnlyFirebaseAsWritten(fromProject: string, list: string -> seq<string>, texts: string -> string)
    ensures CloneOnly(GuardListAsWritten, ["firebase"], fromProject, list, texts)
         == VariableWrites(list(ConfigName(fromProject, "firebase")), texts)
  {
    ReservedClonedAsWritten(fromProject, list);
    CloneOnlySingle(GuardListAsWritten, "firebase", fromProject, list, texts, list(ConfigName(fromProject, "firebase")));
  }

  /** With the evidently intended guard, `--only` with a key in the "firebase" namespace always fails. */
  lemma CloneOnlyCorrected(keys: seq<string>, fromProject: string, list: string -> seq<string>,
                           texts: string -> string, k: nat)
    requires k < |keys| && Split(keys[k], '.')[0] == "firebase"
    ensures CloneOnly(ReservedNamespaces, keys, fromProject, list, texts).failure.Some?
  {
    assert Split(keys[k], '.')[0] in ReservedNamespaces;
  }

  /** The configs of `toClone` from the `k`-th on, each expanded from the empty path, stopping at a refusal. */
  function CloneConfigs(toClone: OMap<Json>, k: nat, parse: string -> Option<Json>, fuel: nat): (w: Writes)
    requires k <= |toClone|
    ensures forall i :: 0 <= i < |w.calls| ==> w.calls[i].configId in Keys(toClone)[k..]
    decreases |toClone| - k
  {
    if k == |toClone| then Writes([], false)
    else
      var first := SetVariablesRecursive(toClone[k].0, "", toClone[k].1, parse, fuel);
      assert toClone[k].0 == Keys(toClone)[k..][0];
      if first.failed then first
      else
        var rest := CloneConfigs(toClone, k + 1, parse, fuel);
        Writes(first.calls + rest.calls, rest.failed)
  }

  /** Each config's expansion from the empty path, from the `k`-th config on. */
  function ConfigWrites(toClone: OMap<Json>, k: nat, parse: string -> Option<Json>, fuel: nat): (parts: seq<Writes>)
    requires k <= |toClone|
    ensures |parts| == |toClone| - k
  {
    seq(|toClone| - k, i requires 0 <= i < |toClone| - k =>
      SetVariablesRecursive(toClone[k + i].0, "", toClone[k + i].1, parse, fuel))
  }

  /** The configs are expanded in order, each from the empty path, up to the first refusal. */
  lemma {:induction false} CloneConfigsSequence(toClone: OMap<Json>, k: nat, parse: string -> Option<Json>, fuel: nat)
    requires k <= |toClone|
    ensures CloneConfigs(toClone, k, parse, fuel) == Sequence(ConfigWrites(toClone, k, parse, fuel))
    decreases |toClone| - k
  {
    if k < |toClone| {
      assert ConfigWrites(toClone, k, parse, fuel)[1..] == ConfigWrites(toClone, k + 1, parse, fuel);
      CloneConfigsSequence(toClone, k + 1, parse, fuel);
    }
  }

  /** The configs left to copy after dropping the reserved namespace and the except keys. */
  function Remaining(materialized: OMap<Json>, except: seq<string>): (toClone: OMap<Json>)
  {
    var j := UnsetAll(UnsetPath(JObj(materialized), ["firebase"]), except);
    if j.JObj? then j.props else []
  }

  /** A failed expansion reported as a clone failure. */
  function FromWrites(w: Writes): Cloned
  {
    Cloned(w.calls, if w.failed then Some(Refused(TwoPartKeyError)) else None)
  }

  /**
   * The whole clone: with `only` (any list, even an empty one) the keys it
   * names; otherwise every materialized config but "firebase" and the except
   * keys. `materialized` is what reading every config gives.
   */
  function CloneSpec(fromProject: string, only: Option<seq<string>>, except: Option<seq<string>>,
                     list: string -> seq<string>, texts: string -> string, materialized: OMap<Json>,
                     parse: string -> Option<Json>, fuel: nat): Cloned
  {
    if only.Some? then CloneOnly(GuardListAsWritten, only.value, fromProject, list, texts)
    else FromWrites(CloneConfigs(Remaining(materialized, except.GetOr([])), 0, parse, fuel))
  }

  /** Without `only`, nothing is written to the "firebase" config. */
  lemma CloneSkipsFirebase(fromProject: string, except: Option<seq<string>>,
                           list: string -> seq<string>, texts: string -> string, materialized: OMap<Json>,
                           parse: string -> Option<Json>, fuel: nat)
    ensures var c := CloneSpec(fromProject, None, except, list, texts, materialized, parse, fuel);
      forall i :: 0 <= i < |c.writes| ==> c.writes[i].configId != "firebase"
  {
    var j0 := UnsetPath(JObj(materialized), ["firebase"]);
    UnsetGet(JObj(materialized), ["firebase"]);
    var ex := except.GetOr([]);
    var j := UnsetAll(j0, ex);
    assert GetPath(j, ["firebase"]) == None by {
      UnsetAllKeepsAbsent(j0, ex, ["firebase"]);
    }
    var toClone := Remaining(materialized, ex);
    assert "firebase" !in Keys(toClone) by {
      assert j.JObj?;
      assert Prop(j, "firebase") == None;
    }
    assert Keys(toClone)[0..] == Keys(toClone);
  }

  /** Unsetting several keys never makes a missing path appear. */
  lemma {:induction false} UnsetAllKeepsAbsent(json: Json, except: seq<string>, q: seq<string>)
    requires GetPath(json, q) == None
    ensures GetPath(UnsetAll(json, except), q) == None
    decreases |except|
  {
    if except != [] {
      UnsetAllKeepsAbsent(json, except[..|except| - 1], q);
      UnsetKeepsAbsent(UnsetAll(json, except[..|except| - 1]), PathOf(except[|except| - 1]), q);
    }
  }

  /** `functionsConfigClone(fromProject, toProject, only, except)`. */
  method Clone(fromProject: string, only: Option<seq<string>>, except: Option<seq<string>>,
               list: string -> seq<string>, texts: string -> string, materialized: OMap<Json>,
               parse: string -> Option<Json>, fuel: nat) returns (c: Cloned)
    ensures c == CloneSpec(fromProject, only, except, list, texts, materialized, parse, fuel)
  {
    if only.Some? {
      return CloneOnly(GuardListAsWritten, only.value, fromProject, list, texts);
    }
    var toClone := UnsetPath(JObj(materialized), ["firebase"]);
    toClone := ApplyExcept(toClone, except.GetOr([]));
    var configs := if toClone.JObj? then toClone.props else [];
    c := FromWrites(CloneConfigs(configs, 0, parse, fuel));
  }
}
