/**
 * JSON-like values as the CLI holds them in memory (parsed `.firebaserc`
 * data, functions config, event payloads), and lodash's deep-path access
 * (`_.get`, `_.set`, `_.unset`) over them. Arrays are lists of strings: the
 * only arrays these files hold are lists of resource names.
 */
module Json {
  import opened Wrappers
  import opened OMaps
  import Strs

  datatype Json =
    | JNull
    | JBool(b: bool)
    | JNum(n: int)
    | JStr(s: string)
    | JList(items: seq<string>)
    | JObj(props: OMap<Json>)

  /** JavaScript truthiness of a present value. */
  predicate Truthy(j: Json)
  {
    match j
    case JNull => false
    case JBool(b) => b
    case JNum(n) => n != 0
    case JStr(s) => s != ""
    case JList(_) => true
    case JObj(_) => true
  }

  /** `String(j)`: the text JavaScript makes of a value. */
  function ToText(j: Json): string
  {
    match j
    case JNull => "null"
    case JBool(b) => if b then "true" else "false"
    case JNum(n) => Strs.IntToString(n)
    case JStr(s) => s
    case JList(items) => Strs.Join(items, ",")
    case JObj(_) => "[object Object]"
  }

  /** `j[k]` for a property of an object; `undefined` (None) for anything else. */
  function Prop(j: Json, k: string): (r: Option<Json>)
    ensures r.Some? ==> j.JObj? && k in Keys(j.props)
  {
    if j.JObj? then Get(j.props, k) else None
  }

  /** `_.get(j, path)`: follow the property names in turn; `undefined` (None) once one is missing. */
  function GetPath(j: Json, path: seq<string>): Option<Json>
    decreases |path|
  {
    if path == [] then Some(j)
    else
      match Prop(j, path[0])
      case None => None
      case Some(c) => GetPath(c, path[1..])
  }

  /** The properties of the object at `path`, or none when there is no object there. */
  function ObjAt(j: Json, path: seq<string>): OMap<Json>
  {
    match GetPath(j, path)
    case Some(JObj(m)) => m
    case _ => []
  }

  /** An existing object value, or a fresh empty object in place of anything else. */
  function AsObject(o: Option<Json>): Json
  {
    if o.Some? && o.value.JObj? then o.value else JObj([])
  }

  /**
   * `_.set(j, path, v)`: on an object, write `v` at `path`, creating (or
   * replacing) every missing or non-object intermediate with an empty
   * object; anything but an object is left as it is.
   */
  function SetPath(j: Json, path: seq<string>, v: Json): (r: Json)
    ensures r.JObj? <==> j.JObj?
    decreases |path|
  {
    if path == [] || !j.JObj? then j
    else
      var child := if |path| == 1 then v else SetPath(AsObject(Get(j.props, path[0])), path[1..], v);
      JObj(Put(j.props, path[0], child))
  }

  /** `_.unset(j, path)`: delete the last property of `path` when its parent object exists. */
  function UnsetPath(j: Json, path: seq<string>): (r: Json)
    ensures r.JObj? <==> j.JObj?
    decreases |path|
  {
    if path == [] || !j.JObj? then j
    else if |path| == 1 then JObj(Remove(j.props, path[0]))
    else
      match Get(j.props, path[0])
      case None => j
      case Some(c) => if c.JObj? then JObj(Put(j.props, path[0], UnsetPath(c, path[1..]))) else j
  }

  /** Neither path is a prefix of the other: they part at some position. */
  predicate Diverge(p: seq<string>, q: seq<string>)
    decreases |p|
  {
    p != [] && q != [] && (p[0] != q[0] || Diverge(p[1..], q[1..]))
  }

  /** A value written with `_.set` on an object reads back with `_.get`. */
  lemma {:induction false} SetGet(j: Json, path: seq<string>, v: Json)
    requires j.JObj? && path != []
    ensures GetPath(SetPath(j, path, v), path) == Some(v)
    decreases |path|
  {
    PutGet(j.props, path[0], if |path| == 1 then v else SetPath(AsObject(Get(j.props, path[0])), path[1..], v), path[0]);
    if |path| > 1 {
      SetGet(AsObject(Get(j.props, path[0])), path[1..], v);
    }
  }

  /** After `_.unset` the path reads as `undefined`. */
  lemma {:induction false} UnsetGet(j: Json, path: seq<string>)
    requires path != []
    ensures GetPath(UnsetPath(j, path), path) == None
    decreases |path|
  {
    if j.JObj? {
      if |path| == 1 {
        RemoveGet(j.props, path[0], path[0]);
      } else {
        match Get(j.props, path[0])
        case None =>
        case Some(c) =>
          if c.JObj? {
            PutGet(j.props, path[0], UnsetPath(c, path[1..]), path[0]);
            UnsetGet(c, path[1..]);
          } else {
            assert Prop(c, path[1]) == None;
          }
      }
    }
  }

  /** Reading one property below a path is a lookup in the object found at that path. */
  lemma {:induction false} GetUnder(j: Json, pre: seq<string>, k: string)
    ensures GetPath(j, pre + [k]) == Get(ObjAt(j, pre), k)
    decreases |pre|
  {
    if pre != [] {
      assert (pre + [k])[0] == pre[0] && (pre + [k])[1..] == pre[1..] + [k];
      match Prop(j, pre[0])
      case None =>
      case Some(c) => GetUnder(c, pre[1..], k);
    }
  }

  /** Writing one property below a path writes it into the object at that path (created if need be). */
  lemma {:induction false} SetUnder(j: Json, pre: seq<string>, k: string, v: Json)
    requires j.JObj?
    ensures ObjAt(SetPath(j, pre + [k], v), pre) == Put(ObjAt(j, pre), k, v)
    decreases |pre|
  {
    if pre != [] {
      var path := pre + [k];
      assert path[0] == pre[0] && path[1..] == pre[1..] + [k];
      var c := AsObject(Get(j.props, pre[0]));
      PutGet(j.props, pre[0], SetPath(c, pre[1..] + [k], v), pre[0]);
      SetUnder(c, pre[1..], k, v);
      AsObjectAt(j, pre);
    }
  }

  /** Replacing a missing or non-object property by an empty object does not change what lies below it. */
  lemma AsObjectAt(j: Json, pre: seq<string>)
    requires j.JObj? && pre != []
    ensures ObjAt(AsObject(Get(j.props, pre[0])), pre[1..]) == ObjAt(j, pre)
  {
    var o := Get(j.props, pre[0]);
    assert GetPath(j, pre) == if o.None? then None else GetPath(o.value, pre[1..]);
    if !(o.Some? && o.value.JObj?) {
      if pre[1..] != [] {
        assert GetPath(JObj([]), pre[1..]) == None;
        if o.Some? {
          assert Prop(o.value, pre[1..][0]) == None;
        }
      }
    }
  }

  /** Deleting one property below a path deletes it from the object at that path, if there is one. */
  lemma {:induction false} UnsetUnder(j: Json, pre: seq<string>, k: string)
    ensures ObjAt(UnsetPath(j, pre + [k]), pre) == Remove(ObjAt(j, pre), k)
    decreases |pre|
  {
    if pre != [] && j.JObj? {
      var path := pre + [k];
      assert path[0] == pre[0] && path[1..] == pre[1..] + [k];
      match Get(j.props, pre[0])
      case None =>
      case Some(c) =>
        if c.JObj? {
          PutGet(j.props, pre[0], UnsetPath(c, pre[1..] + [k]), pre[0]);
          UnsetUnder(c, pre[1..], k);
        } else if pre[1..] != [] {
          assert Prop(c, pre[1..][0]) == None;
          assert GetPath(j, pre) == None;
          assert Remove<Json>([], k) == [];
        } else {
          assert GetPath(j, pre) == Some(c);
          assert Remove<Json>([], k) == [];
        }
    }
  }

  /** `_.set` leaves every path that parts from the written one as it was. */
  lemma {:induction false} SetElsewhere(j: Json, p: seq<string>, q: seq<string>, v: Json)
    requires Diverge(p, q)
    ensures GetPath(SetPath(j, p, v), q) == GetPath(j, q)
    decreases |p|
  {
    if j.JObj? {
      var child := if |p| == 1 then v else SetPath(AsObject(Get(j.props, p[0])), p[1..], v);
      PutGet(j.props, p[0], child, q[0]);
      if p[0] == q[0] {
        var c := AsObject(Get(j.props, p[0]));
        SetElsewhere(c, p[1..], q[1..], v);
        AsObjectGet(j, q);
      }
    }
  }

  /** Below a missing or non-object property every non-empty path is `undefined`, as it is in a fresh empty object. */
  lemma AsObjectGet(j: Json, q: seq<string>)
    requires j.JObj? && |q| > 1
    ensures GetPath(AsObject(Get(j.props, q[0])), q[1..]) == GetPath(j, q)
  {
    var o := Get(j.props, q[0]);
    if !(o.Some? && o.value.JObj?) {
      assert GetPath(JObj([]), q[1..]) == None;
      if o.Some? {
        assert Prop(o.value, q[1..][0]) == None;
      }
    }
  }

  /** `_.unset` leaves every path that parts from the deleted one as it was. */
  lemma {:induction false} UnsetElsewhere(j: Json, p: seq<string>, q: seq<string>)
    requires Diverge(p, q)
    ensures GetPath(UnsetPath(j, p), q) == GetPath(j, q)
    decreases |p|
  {
    if j.JObj? {
      if |p| == 1 {
        RemoveGet(j.props, p[0], q[0]);
      } else {
        match Get(j.props, p[0])
        case None =>
        case Some(c) =>
          if c.JObj? {
            PutGet(j.props, p[0], UnsetPath(c, p[1..]), q[0]);
            if p[0] == q[0] {
              UnsetElsewhere(c, p[1..], q[1..]);
            }
          }
      }
    }
  }
}
