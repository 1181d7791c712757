/**
 * Runtime-config helpers behind `functions:config:*`: dotted keys to config
 * and variable ids, full variable resource names and their parsing, the App
 * Engine location, the expansion of a (possibly JSON) value into variable
 * writes, and the parsing of `set` and `unset` arguments.
 */
module FunctionsConfig {
  import opened Wrappers
  import opened Strs
  import opened Lists
  import opened OMaps
  import opened Json

  /** Config namespaces the CLI refuses to write or delete. */
  const ReservedNamespaces: seq<string> := ["firebase"]

  /** A runtime-config config id and variable id. */
  datatype Ids = Ids(config: string, variable: string)

  // ------------------------------------------------------------------ keys

  /** `s` with every `from` replaced by `to`. */
  function Replace(s: string, from: char, to: char): (r: string)
    ensures |r| == |s|
    ensures forall i :: 0 <= i < |s| ==> r[i] == if s[i] == from then to else s[i]
  {
    seq(|s|, i requires 0 <= i < |s| => if s[i] == from then to else s[i])
  }

  /** Splitting on one character and joining with another replaces the one by the other. */
  lemma {:induction false} JoinSplitReplace(s: string, sep: char, to: char)
    ensures Join(Split(s, sep), [to]) == Replace(s, sep, to)
    decreases |s|
  {
    if sep in s {
      var i := IndexOf(s, sep);
      var rest := Split(s[i + 1..], sep);
      JoinSplitReplace(s[i + 1..], sep, to);
      assert Split(s, sep) == [s[..i]] + rest;
      assert ([s[..i]] + rest)[1..] == rest;
      assert Join([s[..i]] + rest, [to]) == s[..i] + [to] + Join(rest, [to]);
      assert s[..i] == Replace(s[..i], sep, to);
      assert Replace(s, sep, to) == s[..i] + [to] + Replace(s[i + 1..], sep, to);
    } else {
      assert Replace(s, sep, to) == s;
    }
  }

  /**
   * `_keyToIds(key)`: the text before the first dot is the config id and
   * the remaining dot-separated parts, joined with "/", the variable id.
   */
  function KeyToIds(key: string): (ids: Ids)
    ensures '.' !in ids.config && '.' !in ids.variable
    ensures '.' !in key ==> ids == Ids(key, "")
    ensures '.' in key ==> ids.config + "/" + ids.variable == Replace(key, '.', '/')
  {
    var parts := Split(key, '.');
    JoinSplitReplace(key, '.', '/');
    var r := Replace(key, '.', '/');
    assert '.' !in r;
    if '.' in key then
      assert Join(parts, "/") == parts[0] + "/" + Join(parts[1..], "/");
      assert Join(parts[1..], "/") == r[|parts[0]| + 1..];
      Ids(parts[0], Join(parts[1..], "/"))
    else
      Ids(parts[0], Join(parts[1..], "/"))
  }

  /** `a.b.c` names config `a` and variable `b/c`. */
  lemma KeyToIdsNested(config: string, rest: string)
    requires '.' !in config
    ensures KeyToIds(config + "." + rest) == Ids(config, Replace(rest, '.', '/'))
  {
    SplitCons(config, '.', rest);
    JoinSplitReplace(rest, '.', '/');
  }

  // ------------------------------------------------------- variable writes

  /** A write `runtimeconfig.variables.set` is asked to make. */
  datatype VarSet = VarSet(configId: string, varPath: string, val: Json)

  const TwoPartKeyError: string := "Invalid argument, each config value must have a 2-part key (e.g. foo.bar)."

  /** `_setVariable`: an empty config id or variable path is refused; anything else becomes a write. */
  function SetVariable(configId: string, varPath: string, val: Json): (r: Result<VarSet, string>)
    ensures r.Err? <==> configId == "" || varPath == ""
    ensures r.Err? ==> r.error == TwoPartKeyError
    ensures r.Ok? ==> r.value == VarSet(configId, varPath, val)
  {
    if configId == "" || varPath == "" then Err(TwoPartKeyError) else Ok(VarSet(configId, varPath, val))
  }

  /** The writes issued, in order, and whether a refused write stopped the expansion. */
  datatype Writes = Writes(calls: seq<VarSet>, failed: bool)

  /** The variable path of a property `key` below `varPath` (the key alone at the top). */
  function ChildPath(varPath: string, key: string): string
  {
    if varPath != "" then varPath + "/" + key else key
  }

  /** `path` is `prefix` itself or lies below it (anything lies below the empty prefix). */
  predicate Below(path: string, prefix: string)
  {
    prefix == "" || path == prefix || StartsWith(path, prefix + "/")
  }

  /** A path below a child of `prefix` is below `prefix`. */
  lemma BelowChild(path: string, prefix: string, key: string)
    requires Below(path, ChildPath(prefix, key))
    ensures Below(path, prefix)
  {
    if prefix != "" {
      var c := prefix + "/" + key;
      assert c[..|prefix + "/"|] == prefix + "/";
      if path != c {
        assert path[..|c|] == c;
        assert path[..|prefix + "/"|] == c[..|prefix + "/"|];
      }
    }
  }

  /**
   * `setVariablesRecursive(projectId, configId, varPath, val)`: a string is
   * first parsed as JSON (a parse failure keeps the string); a plain object
   * is expanded property by property with "/"-joined paths; anything else is
   * written as the original value. A refused write throws and stops the
   * expansion, after the writes already issued. `parse` stands for
   * `JSON.parse`; `fuel` bounds how many strings may be parsed into objects
   * on one path, and running out counts as a failure.
   */
  function SetVariablesRecursive(configId: string, varPath: string, val: Json,
                                 parse: string -> Option<Json>, fuel: nat): (w: Writes)
    ensures w.calls != [] ==> configId != ""
    ensures forall k :: 0 <= k < |w.calls| ==> w.calls[k].configId == configId
    ensures forall k :: 0 <= k < |w.calls| ==> w.calls[k].varPath != "" && Below(w.calls[k].varPath, varPath)
    decreases fuel, val, 1, 0
  {
    if val.JStr? && parse(val.s).Some? && parse(val.s).value.JObj? then
      if fuel == 0 then Writes([], true)
      else SetProperties(configId, varPath, parse(val.s).value, 0, parse, fuel - 1)
    else if val.JObj? then
      SetProperties(configId, varPath, val, 0, parse, fuel)
    else
      match SetVariable(configId, varPath, val)
      case Ok(call) => Writes([call], false)
      case Err(_) => Writes([], true)
  }

  /** The expansion of the properties of `obj` from the `k`-th on, stopping at the first refusal. */
  function SetProperties(configId: string, varPath: string, obj: Json, k: nat,
                         parse: string -> Option<Json>, fuel: nat): (w: Writes)
    requires obj.JObj? && k <= |obj.props|
    ensures w.calls != [] ==> configId != ""
    ensures forall i :: 0 <= i < |w.calls| ==> w.calls[i].configId == configId
    ensures forall i :: 0 <= i < |w.calls| ==> w.calls[i].varPath != "" && Below(w.calls[i].varPath, varPath)
    decreases fuel, obj, 0, |obj.props| - k
  {
    if k == |obj.props| then Writes([], false)
    else
      var key := obj.props[k].0;
      var first := SetVariablesRecursive(configId, ChildPath(varPath, key), obj.props[k].1, parse, fuel);
      forall i | 0 <= i < |first.calls| ensures Below(first.calls[i].varPath, varPath) {
        BelowChild(first.calls[i].varPath, varPath, key);
      }
      if first.failed then first
      else
        var rest := SetProperties(configId, varPath, obj, k + 1, parse, fuel);
        Writes(first.calls + rest.calls, rest.failed)
  }

  /** Every write of `parts`, in order. */
  function AllCalls(parts: seq<Writes>): (calls: seq<VarSet>)
  {
    if parts == [] then [] else parts[0].calls + AllCalls(parts[1..])
  }

  /**
   * Expansions run one after another: the writes of each are issued in
   * turn, and the first refused one stops the rest.
   */
  function Sequence(parts: seq<Writes>): (w: Writes)
    ensures w.failed <==> exists i :: 0 <= i < |parts| && parts[i].failed
    ensures !w.failed ==> w.calls == AllCalls(parts)
  {
    if parts == [] then Writes([], false)
    else if parts[0].failed then parts[0]
    else
      var rest := Sequence(parts[1..]);
      assert forall i :: 1 <= i < |parts| ==> parts[i] == parts[1..][i - 1];
      Writes(parts[0].calls + rest.calls, rest.failed)
  }

  /** When the `i`-th expansion is the first refused one, the writes are those of the first `i + 1`. */
  lemma {:induction false} SequenceStopsAt(parts: seq<Writes>, i: nat)
    requires i < |parts| && parts[i].failed
    requires forall j :: 0 <= j < i ==> !parts[j].failed
    ensures Sequence(parts).failed
    ensures Sequence(parts).calls == AllCalls(parts[..i + 1])
  {
    if i == 0 {
      assert AllCalls(parts[..1]) == parts[0].calls + AllCalls([]);
    } else {
      SequenceStopsAt(parts[1..], i - 1);
      assert parts[..i + 1][1..] == parts[1..][..i];
    }
  }

  /** The expansion of each property of `obj` from the `k`-th on, at the property's own path. */
  function PropertyWrites(configId: string, varPath: string, obj: Json, k: nat,
                          parse: string -> Option<Json>, fuel: nat): (parts: seq<Writes>)
    requires obj.JObj? && k <= |obj.props|
    ensures |parts| == |obj.props| - k
  {
    seq(|obj.props| - k, i requires 0 <= i < |obj.props| - k =>
      SetVariablesRecursive(configId, ChildPath(varPath, obj.props[k + i].0), obj.props[k + i].1, parse, fuel))
  }

  /** An object's properties are expanded in order, each at its key below the path, up to the first refusal. */
  lemma {:induction false} SetPropertiesSequence(configId: string, varPath: string, obj: Json, k: nat,
                                                 parse: string -> Option<Json>, fuel: nat)
    requires obj.JObj? && k <= |obj.props|
    ensures SetProperties(configId, varPath, obj, k, parse, fuel)
         == Sequence(PropertyWrites(configId, varPath, obj, k, parse, fuel))
    decreases |obj.props| - k
  {
    if k < |obj.props| {
      var parts := PropertyWrites(configId, varPath, obj, k, parse, fuel);
      assert parts[1..] == PropertyWrites(configId, varPath, obj, k + 1, parse, fuel);
      SetPropertiesSequence(configId, varPath, obj, k + 1, parse, fuel);
    }
  }

  /**
   * What `setVariablesRecursive` writes: a leaf is one write at the path, or
   * a failure when `_setVariable` refuses it; an object, or a string that
   * parses to one, is the in-order expansion of its properties at
   * `path/key` (the key alone at the top), stopped by the first refusal.
   */
  lemma SetVariablesRecursiveCases(configId: string, varPath: string, val: Json,
                                   parse: string -> Option<Json>, fuel: nat)
    ensures var w := SetVariablesRecursive(configId, varPath, val, parse, fuel);
      !val.JObj? && !(val.JStr? && parse(val.s).Some? && parse(val.s).value.JObj?) ==>
        (w.failed <==> SetVariable(configId, varPath, val).Err?) &&
        w.calls == (if w.failed then [] else [VarSet(configId, varPath, val)])
    ensures val.JObj? ==>
      SetVariablesRecursive(configId, varPath, val, parse, fuel)
        == Sequence(PropertyWrites(configId, varPath, val, 0, parse, fuel))
    ensures val.JStr? && parse(val.s).Some? && parse(val.s).value.JObj? && fuel > 0 ==>
      SetVariablesRecursive(configId, varPath, val, parse, fuel)
        == Sequence(PropertyWrites(configId, varPath, parse(val.s).value, 0, parse, fuel - 1))
  {
    if val.JObj? {
      SetPropertiesSequence(configId, varPath, val, 0, parse, fuel);
    } else if val.JStr? && parse(val.s).Some? && parse(val.s).value.JObj? && fuel > 0 {
      SetPropertiesSequence(configId, varPath, parse(val.s).value, 0, parse, fuel - 1);
    }
  }

  // ------------------------------------------------------- variable names

  const ConfigsMark: string := "/configs/"
  const VariablesMark: string := "/variables/"

  /** `idsToVarName`: the full resource name of a variable. */
  function IdsToVarName(projectId: string, configId: string, varId: string): (name: string)
    ensures name == "projects/" + projectId + ConfigsMark + configId + VariablesMark + varId
  {
    var parts := ["projects", projectId, "configs", configId, "variables", varId];
    assert Join(parts[4..], "/") == "variables" + "/" + varId;
    assert Join(parts[3..], "/") == configId + "/" + Join(parts[4..], "/");
    assert Join(parts[2..], "/") == "configs" + "/" + Join(parts[3..], "/");
    assert Join(parts[1..], "/") == projectId + "/" + Join(parts[2..], "/");
    Join(parts, "/")
  }

  /** The end of the run of non-line-terminators starting at `b`. */
  function RunEnd(s: string, b: nat): (e: nat)
    requires b <= |s|
    ensures b <= e <= |s|
    ensures forall k :: b <= k < e ==> !IsLineTerminator(s[k])
    ensures e < |s| ==> IsLineTerminator(s[e])
    decreases |s| - b
  {
    if b == |s| || IsLineTerminator(s[b]) then b else RunEnd(s, b + 1)
  }

  /** The last position in `lo..hi` where "/variables/" occurs. */
  function LastMarkIn(s: string, lo: nat, hi: int): (r: Option<nat>)
    ensures r.Some? ==> lo <= r.value <= hi && OccursAt(s, VariablesMark, r.value)
    ensures r.Some? ==> forall e :: r.value < e <= hi ==> !OccursAt(s, VariablesMark, e)
    ensures r.None? ==> forall e :: lo <= e <= hi ==> !OccursAt(s, VariablesMark, e)
    decreases hi - lo + 1
  {
    if hi < lo then None
    else if OccursAt(s, VariablesMark, hi) then Some(hi)
    else LastMarkIn(s, lo, hi - 1)
  }

  /**
   * The capture of `/configs/(.+)/variables/` when the match is sought from
   * position `i` on: the leftmost "/configs/" followed by a non-empty run
   * without line terminators and then "/variables/", taking the longest run.
   */
  function ConfigFrom(s: string, i: nat): Option<string>
    decreases |s| - i
  {
    if i >= |s| then None
    else if OccursAt(s, ConfigsMark, i) && LastMarkIn(s, i + 10, RunEnd(s, i + 9)).Some? then
      Some(s[i + 9..LastMarkIn(s, i + 10, RunEnd(s, i + 9)).value])
    else ConfigFrom(s, i + 1)
  }

  /** The capture of `/variables/(.+)` from position `i` on: the rest of the line after the leftmost match. */
  function VariableFrom(s: string, i: nat): Option<string>
    decreases |s| - i
  {
    if i >= |s| then None
    else if OccursAt(s, VariablesMark, i) && RunEnd(s, i + 11) > i + 11 then
      Some(s[i + 11..RunEnd(s, i + 11)])
    else VariableFrom(s, i + 1)
  }

  /** `varNameToIds(name)`: both captures, or `None` where the source dereferences a failed match. */
  function VarNameToIds(name: string): Option<Ids>
  {
    match (ConfigFrom(name, 0), VariableFrom(name, 0))
    case (Some(c), Some(v)) => Some(Ids(c, v))
    case _ => None
  }

  /** The config search moves past positions where "/configs/" does not occur. */
  lemma {:induction false} ConfigFromSkip(s: string, i: nat, i0: nat)
    requires i <= i0 <= |s|
    requires forall k :: i <= k < i0 ==> !OccursAt(s, ConfigsMark, k)
    ensures ConfigFrom(s, i) == ConfigFrom(s, i0)
    decreases i0 - i
  {
    if i < i0 {
      ConfigFromSkip(s, i + 1, i0);
    }
  }

  /** The variable search moves past positions where "/variables/" does not occur. */
  lemma {:induction false} VariableFromSkip(s: string, i: nat, e0: nat)
    requires i <= e0 <= |s|
    requires forall k :: i <= k < e0 ==> !OccursAt(s, VariablesMark, k)
    ensures VariableFrom(s, i) == VariableFrom(s, e0)
    decreases e0 - i
  {
    if i < e0 {
      VariableFromSkip(s, i + 1, e0);
    }
  }

  /**
   * A variable name built from ids parses back to them, when the config and
   * variable ids are non-empty single lines, "/configs/" first occurs right
   * after the project id and "/variables/" occurs only right after the
   * config id.
   */
  lemma VarNameRoundTrip(projectId: string, configId: string, varId: string)
    requires configId != "" && varId != ""
    requires forall k :: 0 <= k < |configId| ==> !IsLineTerminator(configId[k])
    requires forall k :: 0 <= k < |varId| ==> !IsLineTerminator(varId[k])
    requires forall i :: 0 <= i < 9 + |projectId| ==> !OccursAt(IdsToVarName(projectId, configId, varId), ConfigsMark, i)
    requires forall e :: OccursAt(IdsToVarName(projectId, configId, varId), VariablesMark, e) ==> e == 18 + |projectId| + |configId|
    ensures VarNameToIds(IdsToVarName(projectId, configId, varId)) == Some(Ids(configId, varId))
  {
    var s := IdsToVarName(projectId, configId, varId);
    var i0 := 9 + |projectId|;
    var e0 := i0 + 9 + |configId|;
    VarNameLayout(projectId, configId, varId);
    ConfigCapture(s, i0, e0, configId);
    VariableCapture(s, e0, varId);
  }

  /** The config capture of a name whose first "/configs/" is at `i0` and whose only "/variables/" is at `e0`. */
  lemma ConfigCapture(s: string, i0: nat, e0: nat, configId: string)
    requires i0 + 10 <= e0 && e0 + 11 <= |s|
    requires OccursAt(s, ConfigsMark, i0) && OccursAt(s, VariablesMark, e0) && s[i0 + 9..e0] == configId
    requires forall i :: 0 <= i < i0 ==> !OccursAt(s, ConfigsMark, i)
    requires forall e :: OccursAt(s, VariablesMark, e) ==> e == e0
    requires forall k :: i0 + 9 <= k < |s| ==> !IsLineTerminator(s[k])
    ensures ConfigFrom(s, 0) == Some(configId)
  {
    RunEndAll(s, i0 + 9);
    ConfigFromSkip(s, 0, i0);
    LastMarkOnly(s, i0 + 10, |s|, e0);
  }

  /** The variable capture of a name whose only "/variables/" is at `e0`, followed by a non-empty last line. */
  lemma VariableCapture(s: string, e0: nat, varId: string)
    requires e0 + 11 < |s| && OccursAt(s, VariablesMark, e0) && s[e0 + 11..] == varId
    requires forall e :: OccursAt(s, VariablesMark, e) ==> e == e0
    requires forall k :: e0 + 11 <= k < |s| ==> !IsLineTerminator(s[k])
    ensures VariableFrom(s, 0) == Some(varId)
  {
    RunEndAll(s, e0 + 11);
    VariableFromSkip(s, 0, e0);
    assert s[e0 + 11..|s|] == varId;
  }

  /** The only occurrence of "/variables/" in a range is the last one. */
  lemma {:induction false} LastMarkOnly(s: string, lo: nat, hi: int, e0: nat)
    requires lo <= e0 <= hi && OccursAt(s, VariablesMark, e0)
    requires forall e :: OccursAt(s, VariablesMark, e) ==> e == e0
    ensures LastMarkIn(s, lo, hi) == Some(e0)
    decreases hi - lo
  {
    if hi > e0 {
      LastMarkOnly(s, lo, hi - 1, e0);
    }
  }

  /** Where the marks and ids sit in a variable name built from single-line ids. */
  lemma VarNameLayout(projectId: string, configId: string, varId: string)
    requires forall k :: 0 <= k < |configId| ==> !IsLineTerminator(configId[k])
    requires forall k :: 0 <= k < |varId| ==> !IsLineTerminator(varId[k])
    ensures var s := IdsToVarName(projectId, configId, varId);
      var i0 := 9 + |projectId|;
      var e0 := i0 + 9 + |configId|;
      |s| == e0 + 11 + |varId| && OccursAt(s, ConfigsMark, i0) && OccursAt(s, VariablesMark, e0) &&
      s[i0 + 9..e0] == configId && s[e0 + 11..] == varId &&
      forall k :: i0 + 9 <= k < |s| ==> !IsLineTerminator(s[k])
  {
    var s := IdsToVarName(projectId, configId, varId);
    var i0 := 9 + |projectId|;
    var e0 := i0 + 9 + |configId|;
    var tail := configId + VariablesMark + varId;
    assert s == ("projects/" + projectId) + ConfigsMark + tail;
    assert s[i0..i0 + 9] == ConfigsMark;
    assert s[i0 + 9..] == tail;
    assert tail[..|configId|] == configId;
    assert tail[|configId|..|configId| + 11] == VariablesMark;
    assert tail[|configId| + 11..] == varId;
    forall k | 0 <= k < |tail| ensures !IsLineTerminator(tail[k]) {
      if k < |configId| {
        assert tail[k] == configId[k];
      } else if k < |configId| + 11 {
        assert tail[k] == VariablesMark[k - |configId|];
      } else {
        assert tail[k] == varId[k - |configId| - 11];
      }
    }
  }

  /** On a line without terminators the run reaches the end. */
  lemma {:induction false} RunEndAll(s: string, b: nat)
    requires b <= |s|
    requires forall k :: b <= k < |s| ==> !IsLineTerminator(s[k])
    ensures RunEnd(s, b) == |s|
    decreases |s| - b
  {
    if b < |s| {
      RunEndAll(s, b + 1);
    }
  }

  // ------------------------------------------------------------- location

  const DefaultLocation: string := "us-central1"

  /**
   * `getAppEngineLocation(config)`: the project's location id with "1"
   * appended when it ends in a non-digit, or "us-central1" when it is absent
   * or empty.
   */
  function GetAppEngineLocation(locationId: Option<string>): (r: string)
    ensures |r| > 0 && IsDigit(r[|r| - 1])
    ensures locationId.None? || locationId.value == "" ==> r == DefaultLocation
    ensures locationId.Some? && locationId.value != "" ==>
      r == locationId.value || r == locationId.value + "1"
    ensures locationId.Some? && locationId.value != "" && IsDigit(locationId.value[|locationId.value| - 1]) ==>
      r == locationId.value
  {
    match locationId
    case None => DefaultLocation
    case Some(l) =>
      if l == "" then DefaultLocation
      else if !IsDigit(l[|l| - 1]) then l + "1"
      else l
  }

  /** A resolved location resolves to itself. */
  lemma GetAppEngineLocationIdempotent(locationId: Option<string>)
    ensures GetAppEngineLocation(Some(GetAppEngineLocation(locationId))) == GetAppEngineLocation(locationId)
  {
  }

  // ----------------------------------------------------------- arguments

  /** One parsed `key=value` argument of `functions:config:set`. */
  datatype SetArg = SetArg(configId: string, varId: string, val: string)

  /** The key of a `key=value` argument: the text before the first "=". */
  function ArgKey(arg: string): string
  {
    Split(arg, '=')[0]
  }

  /**
   * One iteration of `parseSetArgs`: an argument without "=", a key with an
   * upper-case letter, or a key in a reserved namespace (compared in lower
   * case) is refused, in that order; otherwise the key's ids and everything
   * after the first "=" as the value.
   */
  function ParseSetArg(arg: string): (r: Result<SetArg, string>)
    ensures '=' !in arg ==> r == Err("Invalid argument " + arg + ", must be in key=val format")
    ensures '=' in arg && HasUpper(arg[..IndexOf(arg, '=')]) ==>
      r == Err("Invalid config name " + arg[..IndexOf(arg, '=')] + ", cannot use upper case.")
    ensures ('=' in arg && !HasUpper(arg[..IndexOf(arg, '=')]) &&
             Lower(KeyToIds(arg[..IndexOf(arg, '=')]).config) in ReservedNamespaces) ==>
      r == Err("Cannot set to reserved namespace " + KeyToIds(arg[..IndexOf(arg, '=')]).config)
    ensures r.Ok? <==>
      '=' in arg && !HasUpper(arg[..IndexOf(arg, '=')]) &&
      Lower(KeyToIds(arg[..IndexOf(arg, '=')]).config) !in ReservedNamespaces
    ensures r.Ok? ==> Ids(r.value.configId, r.value.varId) == KeyToIds(arg[..IndexOf(arg, '=')])
    ensures r.Ok? ==> r.value.val == arg[IndexOf(arg, '=') + 1..]
  {
    var parts := Split(arg, '=');
    var key := parts[0];
    FirstPiece(arg, '=');
    if |parts| < 2 then
      Err("Invalid argument " + arg + ", must be in key=val format")
    else if HasUpper(key) then
      Err("Invalid config name " + key + ", cannot use upper case.")
    else
      var id := KeyToIds(key);
      if Lower(id.config) in ReservedNamespaces then
        Err("Cannot set to reserved namespace " + id.config)
      else
        AfterFirst(arg, '=');
        Ok(SetArg(id.config, id.variable, Join(parts[1..], "=")))
  }

  /** The per-argument results of `parseSetArgs`, in argument order. */
  function ParseSetResults(args: seq<string>): (rs: seq<Result<SetArg, string>>)
    ensures |rs| == |args|
    ensures forall i :: 0 <= i < |args| ==> rs[i] == ParseSetArg(args[i])
  {
    seq(|args|, i requires 0 <= i < |args| => ParseSetArg(args[i]))
  }

  /**
   * `parseSetArgs(args)`: the parsed arguments in order, or the error of the
   * first argument that is refused.
   */
  method ParseSetArgs(args: seq<string>) returns (r: Result<seq<SetArg>, string>)
    ensures r.Ok? <==> FirstErr(ParseSetResults(args)) == |args|
    ensures r.Ok? ==> |r.value| == |args| && forall i :: 0 <= i < |args| ==> Ok(r.value[i]) == ParseSetArg(args[i])
    ensures r.Err? ==> Err(r.error) == ParseSetArg(args[FirstErr(ParseSetResults(args))])
  {
    ghost var rs := ParseSetResults(args);
    var parsed: seq<SetArg> := [];
    var i := 0;
    while i < |args|
      invariant 0 <= i <= |args|
      invariant |parsed| == i
      invariant forall j :: 0 <= j < i ==> rs[j] == Ok(parsed[j])
    {
      var res := ParseSetArg(args[i]);
      if res.Err? {
        FirstErrAt(rs, i);
        return Err(res.error);
      }
      parsed := parsed + [res.value];
      i := i + 1;
    }
    FirstErrAt(rs, |args|);
    r := Ok(parsed);
  }

  /** `_.union` of every argument's comma-separated keys, folded from the first argument on. */
  function UnionAll(args: seq<string>): (keys: seq<string>)
    ensures NoDups(keys)
    decreases |args|
  {
    if args == [] then []
    else Uniq(UnionAll(args[..|args| - 1]) + Split(args[|args| - 1], ','))
  }

  /** All comma-separated keys of all arguments, in order. */
  function AllKeys(args: seq<string>): seq<string>
    decreases |args|
  {
    if args == [] then [] else AllKeys(args[..|args| - 1]) + Split(args[|args| - 1], ',')
  }

  /** Removing duplicates from a prefix first does not change the first-occurrence order. */
  lemma {:induction false} UniqAppend(a: seq<string>, b: seq<string>)
    ensures Uniq(Uniq(a) + b) == Uniq(a + b)
    decreases |b|
  {
    if b == [] {
      assert a + b == a && Uniq(a) + b == Uniq(a);
      UniqOfNoDups(Uniq(a));
    } else {
      var b' := b[..|b| - 1];
      var y := b[|b| - 1];
      UniqAppend(a, b');
      assert (Uniq(a) + b)[..|Uniq(a) + b| - 1] == Uniq(a) + b';
      assert (a + b)[..|a + b| - 1] == a + b';
    }
  }

  /** Folding `_.union` over the arguments deduplicates all their keys, keeping first occurrences in order. */
  lemma {:induction false} UnionAllIsUniq(args: seq<string>)
    ensures UnionAll(args) == Uniq(AllKeys(args))
    decreases |args|
  {
    if args != [] {
      var init := args[..|args| - 1];
      UnionAllIsUniq(init);
      UniqAppend(AllKeys(init), Split(args[|args| - 1], ','));
    }
  }

  /** One key of `parseUnsetArgs`: its ids, unless its config is a reserved namespace in lower case. */
  function ParseUnsetKey(key: string): (r: Result<Ids, string>)
    ensures r.Ok? <==> Lower(KeyToIds(key).config) !in ReservedNamespaces
    ensures r.Ok? ==> r.value == KeyToIds(key)
    ensures r.Err? ==> r.error == "Cannot unset reserved namespace " + KeyToIds(key).config
  {
    var id := KeyToIds(key);
    if Lower(id.config) in ReservedNamespaces then Err("Cannot unset reserved namespace " + id.config)
    else Ok(id)
  }

  /** The per-key results of `parseUnsetArgs`, in key order. */
  function ParseUnsetResults(keys: seq<string>): (rs: seq<Result<Ids, string>>)
    ensures |rs| == |keys|
    ensures forall i :: 0 <= i < |keys| ==> rs[i] == ParseUnsetKey(keys[i])
  {
    seq(|keys|, i requires 0 <= i < |keys| => ParseUnsetKey(keys[i]))
  }

  /**
   * `parseUnsetArgs(args)`: the distinct comma-separated keys of all
   * arguments, as ids in first-occurrence order, or the error of the first
   * key in a reserved namespace.
   */
  method ParseUnsetArgs(args: seq<string>) returns (keys: seq<string>, r: Result<seq<Ids>, string>)
    ensures keys == Uniq(AllKeys(args))
    ensures r.Ok? <==> FirstErr(ParseUnsetResults(keys)) == |keys|
    ensures r.Ok? ==> |r.value| == |keys| && forall i :: 0 <= i < |keys| ==> Ok(r.value[i]) == ParseUnsetKey(keys[i])
    ensures r.Err? ==> Err(r.error) == ParseUnsetKey(keys[FirstErr(ParseUnsetResults(keys))])
  {
    keys := CollectUnsetKeys(args);
    r := ParseUnsetKeys(keys);
  }

  /** The first half of `parseUnsetArgs`: the union of the comma-separated keys of every argument. */
  method CollectUnsetKeys(args: seq<string>) returns (keys: seq<string>)
    ensures keys == Uniq(AllKeys(args))
  {
    keys := [];
    var i := 0;
    while i < |args|
      invariant 0 <= i <= |args|
      invariant keys == UnionAll(args[..i])
    {
      assert args[..i + 1][..i] == args[..i];
      keys := Uniq(keys + Split(args[i], ','));
      i := i + 1;
    }
    assert args[..|args|] == args;
    UnionAllIsUniq(args);
  }

  /** The second half of `parseUnsetArgs`: each key's ids in order, stopping at the first reserved key. */
  method ParseUnsetKeys(keys: seq<string>) returns (r: Result<seq<Ids>, string>)
    ensures r.Ok? <==> FirstErr(ParseUnsetResults(keys)) == |keys|
    ensures r.Ok? ==> |r.value| == |keys| && forall i :: 0 <= i < |keys| ==> Ok(r.value[i]) == ParseUnsetKey(keys[i])
    ensures r.Err? ==> Err(r.error) == ParseUnsetKey(keys[FirstErr(ParseUnsetResults(keys))])
  {
    ghost var rs := ParseUnsetResults(keys);
    var parsed: seq<Ids> := [];
    var k := 0;
    while k < |keys|
      invariant 0 <= k <= |keys|
      invariant |parsed| == k
      invariant forall j :: 0 <= j < k ==> rs[j] == Ok(parsed[j])
    {
      var res := ParseUnsetKey(keys[k]);
      if res.Err? {
        FirstErrAt(rs, k);
        return Err(res.error);
      }
      parsed := parsed + [res.value];
      k := k + 1;
    }
    FirstErrAt(rs, |keys|);
    r := Ok(parsed);
  }
}
