/**
 * The `.firebaserc` data: project aliases and deploy targets. A deploy target
 * names a list of resources (buckets, database instances, hosting sites) of
 * one project and one target type; `applyTarget` moves resources between the
 * targets of a type so that each resource belongs to one target.
 */
module Rc {
  import opened Wrappers
  import opened Lists
  import opened OMaps
  import opened Json

  /** The target types `applyTarget` is meant to accept: the keys of `TARGET_TYPES`. */
  const TargetTypes: seq<string> := ["storage", "database", "hosting"]

  /** The type test as written, `TARGET_TYPES[type]` truthy: inherited properties count too. */
  predicate TargetTypeAcceptedAsWritten(targetType: string)
  {
    targetType in TargetTypes || targetType in ObjectPrototypeNames
  }

  /** The type test as evidently intended: one of the declared target types. */
  predicate IsTargetType(targetType: string)
  {
    targetType in TargetTypes
  }

  /** As written, `applyTarget` lets the type "constructor" through, though it is no target type. */
  lemma PrototypeTypeAcceptedAsWritten()
    ensures TargetTypeAcceptedAsWritten("constructor") && !IsTargetType("constructor")
  {
  }

  /** The corrected test accepts exactly the three declared types, each of which the test as written accepts too. */
  lemma TargetTypeCorrected(targetType: string)
    ensures IsTargetType(targetType) <==> targetType == "storage" || targetType == "database" || targetType == "hosting"
    ensures IsTargetType(targetType) ==> TargetTypeAcceptedAsWritten(targetType)
  {
  }

  /** The `resources` argument: one name, or a list of them. */
  datatype Resources = One(resource: string) | Many(resources: seq<string>)

  /** A single name is treated as a list of one. */
  function ResourceList(resources: Resources): seq<string>
  {
    match resources
    case One(r) => [r]
    case Many(rs) => rs
  }

  /** A resource taken from the target that held it. */
  datatype Change = Change(resource: string, target: string)

  datatype RcError =
    | UnknownTargetType(targetType: string)
    | TargetNotConfigured(project: string, targetType: string, name: string)

  // ------------------------------------------------------------ targets

  /** Where the targets of one project and type live. */
  function TargetPath(project: string, targetType: string): seq<string>
  {
    ["targets", project, targetType]
  }

  /** The targets of one project and type (none when there is no object there). */
  function TargetsOf(data: Json, project: string, targetType: string): OMap<Json>
  {
    ObjAt(data, TargetPath(project, targetType))
  }

  /** The resource list of a target value; anything but a list reads as empty. */
  function ListOf(o: Option<Json>): seq<string>
  {
    if o.Some? && o.value.JList? then o.value.items else []
  }

  /** `target(project, type, name)`: the target's resources, `[]` when it is absent. */
  function TargetList(data: Json, project: string, targetType: string, name: string): seq<string>
  {
    ListOf(GetPath(data, TargetPath(project, targetType) + [name]))
  }

  /** A target's list is the one stored under its name in the targets of its type. */
  lemma TargetListOf(data: Json, project: string, targetType: string, name: string)
    ensures TargetList(data, project, targetType, name) == ListOf(Get(TargetsOf(data, project, targetType), name))
  {
    GetUnder(data, TargetPath(project, targetType), name);
  }

  /** Target `name` holds resource `r`. */
  predicate Owns(targets: OMap<Json>, name: string, r: string)
  {
    r in ListOf(Get(targets, name))
  }

  /** No resource belongs to two targets. */
  ghost predicate Exclusive(targets: OMap<Json>)
  {
    forall a, b, r :: Owns(targets, a, r) && Owns(targets, b, r) ==> a == b
  }

  /** `i` is the first position of `ks` whose target holds `r`. */
  predicate FirstOwnerAt(targets: OMap<Json>, ks: seq<string>, r: string, i: int)
  {
    0 <= i < |ks| && Owns(targets, ks[i], r) && forall j :: 0 <= j < i ==> !Owns(targets, ks[j], r)
  }

  /** The first of the names `ks` whose target holds `r`. */
  function FirstOwner(targets: OMap<Json>, ks: seq<string>, r: string): (res: Option<string>)
    ensures res.Some? ==> res.value in ks && Owns(targets, res.value, r)
    ensures res.None? ==> forall k :: k in ks ==> !Owns(targets, k, r)
    decreases |ks|
  {
    if ks == [] then None
    else if Owns(targets, ks[0], r) then Some(ks[0])
    else FirstOwner(targets, ks[1..], r)
  }

  /** The name `FirstOwner` returns is the first of `ks` whose target holds `r`. */
  lemma {:induction false} FirstOwnerFirst(targets: OMap<Json>, ks: seq<string>, r: string)
    ensures var res := FirstOwner(targets, ks, r);
      res.Some? ==> exists i :: FirstOwnerAt(targets, ks, r, i) && ks[i] == res.value
    decreases |ks|
  {
    if ks == [] {
    } else if Owns(targets, ks[0], r) {
      assert FirstOwnerAt(targets, ks, r, 0);
    } else {
      var res := FirstOwner(targets, ks[1..], r);
      FirstOwnerFirst(targets, ks[1..], r);
      if res.Some? {
        var i :| FirstOwnerAt(targets, ks[1..], r, i) && ks[1..][i] == res.value;
        assert FirstOwnerAt(targets, ks, r, i + 1);
      }
    }
  }


  /**
   * `findTarget(project, type, resource)`: the first target, in key order,
   * whose list holds the resource, or `None`.
   */
  function FindTarget(data: Json, project: string, targetType: string, r: string): (res: Option<string>)
    ensures res.None? <==> forall a :: !Owns(TargetsOf(data, project, targetType), a, r)
    ensures res.Some? ==> Owns(TargetsOf(data, project, targetType), res.value, r)
    ensures var targets := TargetsOf(data, project, targetType);
      res.Some? ==> exists i :: FirstOwnerAt(targets, Keys(targets), r, i) && Keys(targets)[i] == res.value
  {
    var targets := TargetsOf(data, project, targetType);
    var res := FirstOwner(targets, Keys(targets), r);
    assert forall a :: Owns(targets, a, r) ==> a in Keys(targets);
    FirstOwnerFirst(targets, Keys(targets), r);
    res
  }

  /** When each resource has one target, `findTarget` names the target holding it. */
  lemma FindTargetExclusive(data: Json, project: string, targetType: string, r: string, a: string)
    requires Exclusive(TargetsOf(data, project, targetType)) && Owns(TargetsOf(data, project, targetType), a, r)
    ensures FindTarget(data, project, targetType, r) == Some(a)
  {
  }

  /** `list.filter(r => r !== resource)`. */
  function Without(list: seq<string>, r: string): (out: seq<string>)
    ensures forall x :: x in out <==> x in list && x != r
    decreases |list|
  {
    if list == [] then []
    else if list[0] == r then Without(list[1..], r)
    else [list[0]] + Without(list[1..], r)
  }

  /** The targets after taking `r` out of target `name`: the shorter list, or no target once it is empty. */
  function UnsetRes(targets: OMap<Json>, name: string, r: string): OMap<Json>
  {
    var rest := Without(ListOf(Get(targets, name)), r);
    if rest != [] then Put(targets, name, JList(rest)) else Remove(targets, name)
  }

  /** Taking `r` out of `name` changes ownership of that pair only. */
  lemma UnsetResOwns(targets: OMap<Json>, name: string, r: string, a: string, x: string)
    ensures Owns(UnsetRes(targets, name, r), a, x) <==> Owns(targets, a, x) && !(a == name && x == r)
  {
    var rest := Without(ListOf(Get(targets, name)), r);
    if rest != [] {
      PutGet(targets, name, JList(rest), a);
    } else {
      RemoveGet(targets, name, a);
    }
  }

  /** `unsetTargetResource(project, type, name, resource)` on the data. */
  function UnsetResource(data: Json, project: string, targetType: string, name: string, r: string): (d: Json)
    ensures d.JObj? <==> data.JObj?
  {
    var path := TargetPath(project, targetType) + [name];
    var rest := Without(ListOf(GetPath(data, path)), r);
    if rest != [] then SetPath(data, path, JList(rest)) else UnsetPath(data, path)
  }

  /** On the targets of its type, `unsetTargetResource` is `UnsetRes`. */
  lemma UnsetResourceTargets(data: Json, project: string, targetType: string, name: string, r: string)
    requires data.JObj?
    ensures TargetsOf(UnsetResource(data, project, targetType, name, r), project, targetType) ==
      UnsetRes(TargetsOf(data, project, targetType), name, r)
  {
    var tp := TargetPath(project, targetType);
    GetUnder(data, tp, name);
    var rest := Without(ListOf(GetPath(data, tp + [name])), r);
    if rest != [] {
      SetUnder(data, tp, name, JList(rest));
    } else {
      UnsetUnder(data, tp, name);
    }
  }

  /**
   * `unsetTargetResource` removes the resource from the target, deletes the
   * target once its list is empty, and changes no other target of the type.
   */
  lemma UnsetTargetResourceEffect(data: Json, project: string, targetType: string, name: string, r: string)
    requires data.JObj?
    ensures var after := TargetsOf(UnsetResource(data, project, targetType, name, r), project, targetType);
      var before := TargetsOf(data, project, targetType);
      (forall a, x :: Owns(after, a, x) <==> Owns(before, a, x) && !(a == name && x == r)) &&
      (Without(ListOf(Get(before, name)), r) == [] ==> name !in Keys(after))
  {
    var before := TargetsOf(data, project, targetType);
    UnsetResourceTargets(data, project, targetType, name, r);
    forall a, x ensures Owns(UnsetRes(before, name, r), a, x) <==> Owns(before, a, x) && !(a == name && x == r) {
      UnsetResOwns(before, name, r, a, x);
    }
  }

  // ------------------------------------------------------- applyTarget

  /**
   * One iteration of `applyTarget`'s loop: a resource held by another target
   * (with a non-empty name, the source tests it for truthiness) is taken from
   * it and reported.
   */
  function MoveStep(data: Json, project: string, targetType: string, name: string, r: string): (Json, seq<Change>)
  {
    match FindTarget(data, project, targetType, r)
    case Some(cur) =>
      if cur != "" && cur != name then (UnsetResource(data, project, targetType, cur, r), [Change(r, cur)])
      else (data, [])
    case None => (data, [])
  }

  /** The loop of `applyTarget` over `rs`, in order. */
  function MoveAll(data: Json, project: string, targetType: string, name: string, rs: seq<string>): (res: (Json, seq<Change>))
    ensures res.0.JObj? <==> data.JObj?
    decreases |rs|
  {
    if rs == [] then (data, [])
    else
      var prev := MoveAll(data, project, targetType, name, rs[..|rs| - 1]);
      var step := MoveStep(prev.0, project, targetType, name, rs[|rs| - 1]);
      (step.0, prev.1 + step.1)
  }

  /** The list `applyTarget` stores: the old members and the new resources, deduplicated and sorted. */
  function MergedList(existing: seq<string>, rs: seq<string>): (list: seq<string>)
    ensures Sorted(list) && NoDups(list)
    ensures forall x :: x in list <==> x in existing || x in rs
  {
    var u := Uniq(existing + rs);
    SortKeepsElements(u);
    SortKeepsNoDups(u);
    Sort(u)
  }

  /** The data and the changes `applyTarget` leaves for a valid target type. */
  function ApplyTargetSpec(data: Json, project: string, targetType: string, name: string, rs: seq<string>): (Json, seq<Change>)
  {
    var moved := MoveAll(data, project, targetType, name, rs);
    var path := TargetPath(project, targetType) + [name];
    (SetPath(moved.0, path, JList(MergedList(ListOf(GetPath(moved.0, path)), rs))), moved.1)
  }

  /** Every resource a target holds sits under one of the keys. */
  lemma OwnsKey(targets: OMap<Json>, a: string, r: string)
    requires Owns(targets, a, r)
    ensures a in Keys(targets)
  {
  }

  /** `MoveAll` over `rs + [r]` is `MoveAll` over `rs` followed by one step for `r`. */
  lemma MoveAllSnoc(data: Json, project: string, targetType: string, name: string, rs: seq<string>, r: string)
    ensures var prev := MoveAll(data, project, targetType, name, rs);
      var step := MoveStep(prev.0, project, targetType, name, r);
      MoveAll(data, project, targetType, name, rs + [r]) == (step.0, prev.1 + step.1)
  {
    assert (rs + [r])[..|rs + [r]| - 1] == rs;
  }

  /**
   * One step of the loop only takes `r` out of another target, leaves target
   * `name` alone, reports the target it took `r` from, and, when each
   * resource had one target and none named "" held `r`, leaves `r` in no
   * target but `name`.
   */
  lemma MoveStepEffect(data: Json, project: string, targetType: string, name: string, r: string)
    requires data.JObj?
    ensures var step := MoveStep(data, project, targetType, name, r);
      var before := TargetsOf(data, project, targetType);
      var after := TargetsOf(step.0, project, targetType);
      (forall a, x :: Owns(after, a, x) ==> Owns(before, a, x)) &&
      OMaps.Get(after, name) == OMaps.Get(before, name) &&
      (forall k :: 0 <= k < |step.1| ==>
        step.1[k].resource == r && step.1[k].target != name && step.1[k].target != "" &&
        Owns(before, step.1[k].target, r))
  {
    var before := TargetsOf(data, project, targetType);
    var cur := FindTarget(data, project, targetType, r);
    if cur.Some? && cur.value != "" && cur.value != name {
      UnsetResourceTargets(data, project, targetType, cur.value, r);
      forall a, x ensures Owns(UnsetRes(before, cur.value, r), a, x) <==> Owns(before, a, x) && !(a == cur.value && x == r) {
        UnsetResOwns(before, cur.value, r, a, x);
      }
      RemoveGet(before, cur.value, name);
      PutGet(before, cur.value, JList(Without(ListOf(OMaps.Get(before, cur.value)), r)), name);
    }
  }

  /** When each resource had one target and none named "" held `r`, one step leaves `r` in no target but `name`. */
  lemma MoveStepClears(data: Json, project: string, targetType: string, name: string, r: string)
    requires data.JObj?
    requires Exclusive(TargetsOf(data, project, targetType)) && !Owns(TargetsOf(data, project, targetType), "", r)
    ensures var after := TargetsOf(MoveStep(data, project, targetType, name, r).0, project, targetType);
      forall a :: Owns(after, a, r) ==> a == name
  {
    var before := TargetsOf(data, project, targetType);
    var cur := FindTarget(data, project, targetType, r);
    if cur.Some? {
      forall a | Owns(before, a, r) ensures a == cur.value {
        FindTargetExclusive(data, project, targetType, r, a);
      }
    }
    if cur.Some? && cur.value != "" && cur.value != name {
      UnsetResourceTargets(data, project, targetType, cur.value, r);
      forall a ensures !Owns(UnsetRes(before, cur.value, r), a, r) {
        UnsetResOwns(before, cur.value, r, a, r);
      }
    }
  }

  /** What the loop keeps: targets only lose resources, target `name` is untouched, each change is a real move. */
  ghost predicate Moved(before: OMap<Json>, after: OMap<Json>, name: string, rs: seq<string>, changes: seq<Change>)
  {
    (forall a, x :: Owns(after, a, x) ==> Owns(before, a, x)) &&
    OMaps.Get(after, name) == OMaps.Get(before, name) &&
    forall k :: 0 <= k < |changes| ==>
      changes[k].resource in rs && changes[k].target != name && changes[k].target != "" &&
      Owns(before, changes[k].target, changes[k].resource)
  }

  /** The loop of `applyTarget` only moves resources out of other targets, and reports each move. */
  lemma {:induction false} MoveAllMoved(data: Json, project: string, targetType: string, name: string, rs: seq<string>)
    requires data.JObj?
    ensures var m := MoveAll(data, project, targetType, name, rs);
      Moved(TargetsOf(data, project, targetType), TargetsOf(m.0, project, targetType), name, rs, m.1)
    decreases |rs|
  {
    if rs != [] {
      var init := rs[..|rs| - 1];
      var r := rs[|rs| - 1];
      MoveAllMoved(data, project, targetType, name, init);
      var prev := MoveAll(data, project, targetType, name, init);
      MoveStepEffect(prev.0, project, targetType, name, r);
      var step := MoveStep(prev.0, project, targetType, name, r);
      var changes := prev.1 + step.1;
      forall k | 0 <= k < |changes|
        ensures changes[k].resource in rs && changes[k].target != name && changes[k].target != "" &&
          Owns(TargetsOf(data, project, targetType), changes[k].target, changes[k].resource)
      {
        if k < |prev.1| {
          assert changes[k] == prev.1[k];
          assert changes[k].resource in init;
        } else {
          assert changes[k] == step.1[k - |prev.1|];
        }
      }
    }
  }

  /** A target set that only lost resources keeps one target per resource. */
  lemma ShrinkExclusive(before: OMap<Json>, after: OMap<Json>)
    requires Exclusive(before)
    requires forall a, x :: Owns(after, a, x) ==> Owns(before, a, x)
    ensures Exclusive(after)
  {
    forall a, b, x | Owns(after, a, x) && Owns(after, b, x) ensures a == b {
      assert Owns(before, a, x) && Owns(before, b, x);
    }
  }

  /**
   * With one target per resource and no target named "", the loop leaves
   * every resource of `rs` in no target but `name`.
   */
  lemma {:induction false} MoveAllClears(data: Json, project: string, targetType: string, name: string, rs: seq<string>)
    requires data.JObj?
    requires Exclusive(TargetsOf(data, project, targetType)) && "" !in Keys(TargetsOf(data, project, targetType))
    ensures var after := TargetsOf(MoveAll(data, project, targetType, name, rs).0, project, targetType);
      forall j, a :: 0 <= j < |rs| && Owns(after, a, rs[j]) ==> a == name
    decreases |rs|
  {
    if rs != [] {
      var init := rs[..|rs| - 1];
      var r := rs[|rs| - 1];
      MoveAllClears(data, project, targetType, name, init);
      var prev := MoveAll(data, project, targetType, name, init);
      MoveAllShrinks(data, project, targetType, name, init);
      SplitLast(rs);
      MoveAllSnoc(data, project, targetType, name, init, r);
      StepKeepsCleared(prev.0, project, targetType, name, init, r);
    }
  }

  /** One more step of the loop clears its resource and keeps the earlier ones cleared. */
  lemma StepKeepsCleared(d: Json, project: string, targetType: string, name: string, init: seq<string>, r: string)
    requires d.JObj?
    requires var t := TargetsOf(d, project, targetType);
      Exclusive(t) && (forall x :: !Owns(t, "", x)) &&
      forall j, a :: 0 <= j < |init| && Owns(t, a, init[j]) ==> a == name
    ensures var after := TargetsOf(MoveStep(d, project, targetType, name, r).0, project, targetType);
      forall j, a :: 0 <= j < |init + [r]| && Owns(after, a, (init + [r])[j]) ==> a == name
  {
    var t := TargetsOf(d, project, targetType);
    assert !Owns(t, "", r);
    MoveStepEffect(d, project, targetType, name, r);
    MoveStepClears(d, project, targetType, name, r);
    ClearsSnoc(t, TargetsOf(MoveStep(d, project, targetType, name, r).0, project, targetType), init, r, name);
  }

  /** After the loop over some resources there is still one target per resource, and none named "". */
  lemma MoveAllShrinks(data: Json, project: string, targetType: string, name: string, rs: seq<string>)
    requires data.JObj?
    requires Exclusive(TargetsOf(data, project, targetType)) && "" !in Keys(TargetsOf(data, project, targetType))
    ensures var ti := TargetsOf(MoveAll(data, project, targetType, name, rs).0, project, targetType);
      Exclusive(ti) && forall x :: !Owns(ti, "", x)
  {
    var t0 := TargetsOf(data, project, targetType);
    var ti := TargetsOf(MoveAll(data, project, targetType, name, rs).0, project, targetType);
    MoveAllMoved(data, project, targetType, name, rs);
    ShrinkExclusive(t0, ti);
    forall x ensures !Owns(ti, "", x) {
      if Owns(ti, "", x) {
        OwnsKey(t0, "", x);
      }
    }
  }

  /** A step that only removes ownership and clears `r` keeps the earlier resources cleared too. */
  lemma ClearsSnoc(ti: OMap<Json>, after: OMap<Json>, init: seq<string>, r: string, name: string)
    requires forall j, a :: 0 <= j < |init| && Owns(ti, a, init[j]) ==> a == name
    requires forall a, x :: Owns(after, a, x) ==> Owns(ti, a, x)
    requires forall a :: Owns(after, a, r) ==> a == name
    ensures forall j, a :: 0 <= j < |init + [r]| && Owns(after, a, (init + [r])[j]) ==> a == name
  {
    var rs := init + [r];
    forall j, a | 0 <= j < |rs| && Owns(after, a, rs[j]) ensures a == name {
      if j < |init| {
        assert rs[j] == init[j];
      }
    }
  }

  /** After `applyTarget` the target's list is sorted, duplicate-free, and holds its old members and the new resources. */
  lemma ApplyTargetList(data: Json, project: string, targetType: string, name: string, rs: seq<string>)
    requires data.JObj?
    ensures var list := TargetList(ApplyTargetSpec(data, project, targetType, name, rs).0, project, targetType, name);
      Sorted(list) && NoDups(list) &&
      forall x :: x in list <==> x in TargetList(data, project, targetType, name) || x in rs
  {
    var moved := MoveAll(data, project, targetType, name, rs);
    var path := TargetPath(project, targetType) + [name];
    SetGet(moved.0, path, JList(MergedList(ListOf(GetPath(moved.0, path)), rs)));
    MoveAllMoved(data, project, targetType, name, rs);
    TargetListOf(data, project, targetType, name);
    TargetListOf(moved.0, project, targetType, name);
  }

  /** A resource another target still holds after the loop is in neither the old list of `name` nor `rs`. */
  lemma NotMerged(t0: OMap<Json>, tn: OMap<Json>, name: string, rs: seq<string>, a: string, x: string)
    requires Exclusive(t0)
    requires forall a, x :: Owns(tn, a, x) ==> Owns(t0, a, x)
    requires forall j, a :: 0 <= j < |rs| && Owns(tn, a, rs[j]) ==> a == name
    requires Owns(tn, a, x) && a != name
    ensures !Owns(t0, name, x) && x !in rs
  {
    assert Owns(t0, a, x);
  }

  /**
   * With one target per resource and no target named "", `applyTarget`
   * keeps one target per resource, and each new resource ends up in `name`.
   */
  lemma ApplyTargetExclusive(data: Json, project: string, targetType: string, name: string, rs: seq<string>)
    requires data.JObj?
    requires Exclusive(TargetsOf(data, project, targetType)) && "" !in Keys(TargetsOf(data, project, targetType))
    ensures var after := TargetsOf(ApplyTargetSpec(data, project, targetType, name, rs).0, project, targetType);
      Exclusive(after) && forall x :: x in rs ==> Owns(after, name, x)
  {
    var moved := MoveAll(data, project, targetType, name, rs);
    var tp := TargetPath(project, targetType);
    var t0 := TargetsOf(data, project, targetType);
    var tn := TargetsOf(moved.0, project, targetType);
    MoveAllMoved(data, project, targetType, name, rs);
    MoveAllClears(data, project, targetType, name, rs);
    GetUnder(moved.0, tp, name);
    var list := MergedList(ListOf(GetPath(moved.0, tp + [name])), rs);
    assert ListOf(GetPath(moved.0, tp + [name])) == ListOf(OMaps.Get(t0, name));
    SetUnder(moved.0, tp, name, JList(list));
    var after := Put(tn, name, JList(list));
    PutGet(tn, name, JList(list), name);
    assert forall x :: Owns(after, name, x) <==> x in list;
    forall a, b, x | Owns(after, a, x) && Owns(after, b, x) ensures a == b {
      PutGet(tn, name, JList(list), a);
      PutGet(tn, name, JList(list), b);
      if a != name {
        NotMerged(t0, tn, name, rs, a, x);
      }
      if b != name {
        NotMerged(t0, tn, name, rs, b, x);
      }
      if a != name && b != name {
        assert Owns(t0, a, x) && Owns(t0, b, x);
      }
    }
  }

  /** Every change `applyTarget` reports names one of the new resources and the other target that held it. */
  lemma ApplyTargetChanges(data: Json, project: string, targetType: string, name: string, rs: seq<string>)
    requires data.JObj?
    ensures var changes := ApplyTargetSpec(data, project, targetType, name, rs).1;
      forall k :: 0 <= k < |changes| ==>
        changes[k].resource in rs && changes[k].target != name &&
        Owns(TargetsOf(data, project, targetType), changes[k].target, changes[k].resource)
  {
    MoveAllMoved(data, project, targetType, name, rs);
  }

  // ----------------------------------------------------------- the file

  /** An `RC`: the file path (if any) and its parsed data. */
  class RC {
    var path: Option<string>
    var data: Json

    /** `new RC(rcpath, data)`: missing or falsy data becomes `{}`. */
    constructor(rcpath: Option<string>, data0: Option<Json>)
      ensures path == rcpath
      ensures data == if data0.Some? && Truthy(data0.value) then data0.value else JObj([])
    {
      path := rcpath;
      data := if data0.Some? && Truthy(data0.value) then data0.value else JObj([]);
    }

    /** `set(key, value)`. */
    method Set(key: seq<string>, value: Json)
      modifies this
      ensures data == SetPath(old(data), key, value) && path == old(path)
    {
      data := SetPath(data, key, value);
    }

    /** `unset(key)`. */
    method Unset(key: seq<string>)
      modifies this
      ensures data == UnsetPath(old(data), key) && path == old(path)
    {
      data := UnsetPath(data, key);
    }

    /** `get(key, fallback)`: the value at `key`, or `fallback` when it is `undefined`. */
    function Get(key: seq<string>, fallback: Json): (r: Json)
      reads this
      ensures GetPath(data, key).Some? ==> r == GetPath(data, key).value
      ensures GetPath(data, key).None? ==> r == fallback
    {
      GetPath(data, key).GetOr(fallback)
    }

    /** `addProjectAlias(alias, project)`: record the alias (saving the file is outside the model). */
    method AddProjectAlias(alias: string, project: string)
      modifies this
      ensures data == SetPath(old(data), ["projects", alias], JStr(project)) && path == old(path)
    {
      Set(["projects", alias], JStr(project));
    }

    /** `removeProjectAlias(alias)`. */
    method RemoveProjectAlias(alias: string)
      modifies this
      ensures data == UnsetPath(old(data), ["projects", alias]) && path == old(path)
    {
      Unset(["projects", alias]);
    }

    /** `hasProjects`: `_.size(data.projects) > 0`. */
    function HasProjects(): (b: bool)
      reads this
      ensures b <==> Prop(data, "projects").Some? && Size(Prop(data, "projects").value) > 0
    {
      match Prop(data, "projects")
      case None => false
      case Some(p) => Size(p) > 0
    }

    /** `projects`: the alias table, `{}` when absent. */
    function Projects(): (r: Json)
      reads this
      ensures Prop(data, "projects").None? ==> r == JObj([])
      ensures Prop(data, "projects").Some? ==> r == Prop(data, "projects").value
    {
      Get(["projects"], JObj([]))
    }

    /** `targets(project, type)`: the targets of a type, `{}` when absent. */
    function Targets(project: string, targetType: string): (r: Json)
      reads this
      ensures GetPath(data, TargetPath(project, targetType)).None? ==> r == JObj([])
      ensures GetPath(data, TargetPath(project, targetType)).Some? ==> r == GetPath(data, TargetPath(project, targetType)).value
      ensures r.JObj? ==> r.props == TargetsOf(data, project, targetType) || GetPath(data, TargetPath(project, targetType)).None?
    {
      Get(TargetPath(project, targetType), JObj([]))
    }

    /** `target(project, type, name)`. */
    function Target(project: string, targetType: string, name: string): (list: seq<string>)
      reads this
      ensures list == ListOf(OMaps.Get(TargetsOf(data, project, targetType), name))
    {
      TargetListOf(data, project, targetType, name);
      TargetList(data, project, targetType, name)
    }

    /** `findTarget(project, type, resource)`. */
    function FindTargetOf(project: string, targetType: string, resource: string): (res: Option<string>)
      reads this
      ensures res.None? <==> forall a :: !Owns(TargetsOf(data, project, targetType), a, resource)
      ensures res.Some? ==> Owns(TargetsOf(data, project, targetType), res.value, resource)
      ensures var targets := TargetsOf(data, project, targetType);
        res.Some? ==> exists i :: FirstOwnerAt(targets, Keys(targets), resource, i) && Keys(targets)[i] == res.value
    {
      FindTarget(data, project, targetType, resource)
    }

    /** `unsetTargetResource(project, type, name, resource)`. */
    method UnsetTargetResource(project: string, targetType: string, name: string, resource: string)
      modifies this
      ensures data == UnsetResource(old(data), project, targetType, name, resource) && path == old(path)
    {
      var targetPath := TargetPath(project, targetType) + [name];
      var updated := Without(ListOf(GetPath(data, targetPath)), resource);
      if updated != [] {
        Set(targetPath, JList(updated));
      } else {
        Unset(targetPath);
      }
    }

    /** One iteration of `applyTarget`'s loop: take `resource` from another target holding it. */
    method MoveResource(project: string, targetType: string, targetName: string, resource: string)
      returns (moved: seq<Change>)
      modifies this
      ensures (data, moved) == MoveStep(old(data), project, targetType, targetName, resource)
      ensures path == old(path)
    {
      var cur := FindTargetOf(project, targetType, resource);
      if cur.Some? && cur.value != "" && cur.value != targetName {
        UnsetTargetResource(project, targetType, cur.value, resource);
        moved := [Change(resource, cur.value)];
      } else {
        moved := [];
      }
    }

    /**
     * `applyTarget(project, type, targetName, resources)`: refuse a type the
     * `TARGET_TYPES` lookup does not find (inherited names are found);
     * otherwise take each resource from any other target that holds it, then
     * store the merged, sorted list, and report the moves.
     */
    method ApplyTarget(project: string, targetType: string, targetName: string, resources: Resources)
      returns (r: Result<seq<Change>, RcError>)
      modifies this
      ensures !TargetTypeAcceptedAsWritten(targetType) ==> r == Err(UnknownTargetType(targetType)) && data == old(data)
      ensures TargetTypeAcceptedAsWritten(targetType) ==>
        var spec := ApplyTargetSpec(old(data), project, targetType, targetName, ResourceList(resources));
        r == Ok(spec.1) && data == spec.0
      ensures path == old(path)
    {
      if !TargetTypeAcceptedAsWritten(targetType) {
        return Err(UnknownTargetType(targetType));
      }
      var rs := ResourceList(resources);
      var changed := MoveResources(project, targetType, targetName, rs);
      var existing := TargetList(data, project, targetType, targetName);
      var list := MergedList(existing, rs);
      Set(TargetPath(project, targetType) + [targetName], JList(list));
      r := Ok(changed);
    }

    /** The loop of `applyTarget`: move each resource to `targetName` in turn, collecting the moves. */
    method MoveResources(project: string, targetType: string, targetName: string, rs: seq<string>)
      returns (changed: seq<Change>)
      modifies this
      ensures (data, changed) == MoveAll(old(data), project, targetType, targetName, rs)
      ensures path == old(path)
    {
      changed := [];
      var i := 0;
      while i < |rs|
        invariant 0 <= i <= |rs|
        invariant (data, changed) == MoveAll(old(data), project, targetType, targetName, rs[..i])
        invariant path == old(path)
      {
        MoveAllSnoc(old(data), project, targetType, targetName, rs[..i], rs[i]);
        assert rs[..i + 1] == rs[..i] + [rs[i]];
        var moved := MoveResource(project, targetType, targetName, rs[i]);
        changed := changed + moved;
        i := i + 1;
      }
      assert rs[..|rs|] == rs;
    }

    /**
     * `removeTarget(project, type, resource)`: take the resource from the
     * target holding it and return that target's name; `None` and no change
     * when no target (or only a target named "") holds it.
     */
    method RemoveTarget(project: string, targetType: string, resource: string) returns (r: Option<string>)
      modifies this
      ensures var owner := FindTarget(old(data), project, targetType, resource);
        if owner.Some? && owner.value != "" then
          r == owner && data == UnsetResource(old(data), project, targetType, owner.value, resource)
        else
          r.None? && data == old(data)
      ensures path == old(path)
    {
      var name := FindTargetOf(project, targetType, resource);
      if name.None? || name.value == "" {
        return None;
      }
      UnsetTargetResource(project, targetType, name.value, resource);
      r := name;
    }

    /**
     * `clearTarget(project, type, name)`: `false` and no change for an empty
     * or absent target; otherwise delete it and return `true`.
     */
    method ClearTarget(project: string, targetType: string, name: string) returns (b: bool)
      modifies this
      ensures b <==> TargetList(old(data), project, targetType, name) != []
      ensures b ==> data == UnsetPath(old(data), TargetPath(project, targetType) + [name])
      ensures b ==> TargetList(data, project, targetType, name) == []
      ensures !b ==> data == old(data)
      ensures path == old(path)
    {
      var exists_ := TargetList(data, project, targetType, name) != [];
      if !exists_ {
        return false;
      }
      Unset(TargetPath(project, targetType) + [name]);
      UnsetGet(old(data), TargetPath(project, targetType) + [name]);
      b := true;
    }

    /** `requireTarget(project, type, name)`: the target's resources, refused when there are none. */
    function RequireTarget(project: string, targetType: string, name: string): (r: Result<seq<string>, RcError>)
      reads this
      ensures r.Err? <==> TargetList(data, project, targetType, name) == []
      ensures r.Err? ==> r.error == TargetNotConfigured(project, targetType, name)
      ensures r.Ok? ==> r.value == TargetList(data, project, targetType, name)
    {
      var target := TargetList(data, project, targetType, name);
      if target == [] then Err(TargetNotConfigured(project, targetType, name)) else Ok(target)
    }
  }

  /** `_.size` of a value: the number of properties, items or characters; 0 for anything else. */
  function Size(j: Json): nat
  {
    match j
    case JObj(props) => |props|
    case JList(items) => |items|
    case JStr(s) => |s|
    case _ => 0
  }
}
