/**
 JSON values as the agent handles them (`map[string]interface{}` trees), and the
 nested-field helpers of the Kubernetes `unstructured` package that the executor and
 the drift check are written against.
 */
module Json {
  import opened Options

  /** A number is kept as its literal: nothing in the modelled code computes with it. */
  datatype Value =
    | Null
    | Bool(b: bool)
    | Num(literal: string)
    | Str(s: string)
    | Arr(items: seq<Value>)
    | Obj(fields: map<string, Value>)

  type Fields = map<string, Value>
  type Path = seq<string>

  /** An object whose member tree is edited in place (`unstructured.Unstructured`). */
  class Unstructured {
    var content: Fields

    constructor (content: Fields)
      ensures this.content == content
    {
      this.content := content;
    }
  }

  function Get(m: Fields, k: string): Option<Value> {
    if k in m then Some(m[k]) else None
  }

  /** Two objects with the same members are the same object. */
  lemma SameMembers(a: Fields, b: Fields)
    requires forall k :: Get(a, k) == Get(b, k)
    ensures a == b
  {
    forall k ensures k in a <==> k in b {
      assert Get(a, k) == Get(b, k);
    }
    forall k | k in a ensures a[k] == b[k] {
      assert Get(a, k) == Get(b, k);
    }
  }

  /** `NestedFieldNoCopy`: the value at a path, if every step before the last is an object. */
  function Lookup(m: Fields, path: Path): Option<Value>
    requires path != []
    decreases |path|
  {
    if path[0] !in m then None
    else if |path| == 1 then Some(m[path[0]])
    else if m[path[0]].Obj? then Lookup(m[path[0]].fields, path[1..])
    else None
  }

  /** `NestedString`, with "" for a missing or non-string value as its callers read it. */
  function LookupString(m: Fields, path: Path): string
    requires path != []
  {
    match Lookup(m, path)
    case Some(Str(s)) => s
    case _ => ""
  }

  /** `SetNestedField`: missing objects on the way are created; a non-object on the way is an error. */
  function SetNested(m: Fields, path: Path, v: Value): Option<Fields>
    requires path != []
    decreases |path|
  {
    if |path| == 1 then Some(m[path[0] := v])
    else if path[0] in m && !m[path[0]].Obj? then None
    else
      var child := if path[0] in m then m[path[0]].fields else map[];
      match SetNested(child, path[1..], v)
      case None => None
      case Some(c) => Some(m[path[0] := Obj(c)])
  }

  /** The setters on `Unstructured` ignore the error and leave the object as it was. */
  function SetOrKeep(m: Fields, path: Path, v: Value): Fields
    requires path != []
  {
    match SetNested(m, path, v)
    case None => m
    case Some(r) => r
  }

  /** `RemoveNestedField`. */
  function RemoveNested(m: Fields, path: Path): Fields
    requires path != []
    decreases |path|
  {
    if |path| == 1 then m - {path[0]}
    else if path[0] in m && m[path[0]].Obj? then
      m[path[0] := Obj(RemoveNested(m[path[0]].fields, path[1..]))]
    else m
  }

  predicate AllStrings(m: Fields) {
    forall k | k in m :: m[k].Str?
  }

  /** `NestedStringMap`: absent unless the path holds an object whose members are all strings. */
  function LookupStringMap(m: Fields, path: Path): (r: Option<Fields>)
    requires path != []
    ensures r.Some? ==> AllStrings(r.value)
  {
    match Lookup(m, path)
    case Some(Obj(f)) => if AllStrings(f) then Some(f) else None
    case _ => None
  }

  /** What was set is found again, and setting it once more changes nothing. */
  lemma {:induction false} SetThenLookup(m: Fields, path: Path, v: Value)
    requires path != [] && SetNested(m, path, v).Some?
    ensures Lookup(SetNested(m, path, v).value, path) == Some(v)
    ensures SetNested(SetNested(m, path, v).value, path, v) == SetNested(m, path, v)
    decreases |path|
  {
    if |path| == 1 {
      assert m[path[0] := v][path[0] := v] == m[path[0] := v];
    } else {
      var k := path[0];
      var child := if k in m then m[k].fields else map[];
      SetThenLookup(child, path[1..], v);
      var r := SetNested(m, path, v).value;
      assert r[k := r[k]] == r;
    }
  }

  /** What was removed is not found. */
  lemma {:induction false} RemoveThenLookup(m: Fields, path: Path)
    requires path != []
    ensures Lookup(RemoveNested(m, path), path) == None
    decreases |path|
  {
    if |path| > 1 && path[0] in m && m[path[0]].Obj? {
      RemoveThenLookup(m[path[0]].fields, path[1..]);
    }
  }

  /** Setting a value that is already there is the identity; so a found path is always settable. */
  lemma {:induction false} SetWhatIsThere(m: Fields, path: Path, v: Value)
    requires path != [] && Lookup(m, path) == Some(v)
    ensures SetNested(m, path, v) == Some(m)
    decreases |path|
  {
    if |path| == 1 {
      assert m[path[0] := v] == m;
    } else {
      SetWhatIsThere(m[path[0]].fields, path[1..], v);
      assert m[path[0] := m[path[0]]] == m;
    }
  }

  /** Whether a path can be set does not depend on the value. */
  lemma {:induction false} SettableForAny(m: Fields, path: Path, v: Value, w: Value)
    requires path != []
    ensures SetNested(m, path, v).Some? <==> SetNested(m, path, w).Some?
    decreases |path|
  {
    if |path| > 1 && !(path[0] in m && !m[path[0]].Obj?) {
      var child := if path[0] in m then m[path[0]].fields else map[];
      SettableForAny(child, path[1..], v, w);
    }
  }

  /** Looking up a longer path is looking up in two steps. */
  lemma {:induction false} LookupInSteps(m: Fields, p: Path, q: Path)
    requires p != [] && q != []
    ensures Lookup(m, p + q) ==
            match Lookup(m, p) case Some(Obj(f)) => Lookup(f, q) case _ => None
    decreases |p|
  {
    if |p| == 1 {
      assert (p + q)[1..] == q;
    } else if p[0] in m && m[p[0]].Obj? {
      assert (p + q)[1..] == p[1..] + q;
      LookupInSteps(m[p[0]].fields, p[1..], q);
    }
  }

  /** Neither path leads through the other. */
  predicate Diverge(p: Path, q: Path) {
    !(p <= q) && !(q <= p)
  }

  /** Paths that differ at a step diverge. */
  lemma DivergeAt(p: Path, q: Path, i: nat)
    requires i < |p| && i < |q| && p[i] != q[i]
    ensures Diverge(p, q) && Diverge(q, p)
  {
  }

  lemma DivergeBelow(p: Path, q: Path)
    requires p != [] && q != [] && p[0] == q[0] && Diverge(p, q)
    ensures |p| > 1 && |q| > 1 && Diverge(p[1..], q[1..])
  {
    assert p == [p[0]] + p[1..] && q == [q[0]] + q[1..];
  }

  /** A write is not seen on a path that leads elsewhere. */
  lemma {:induction false} SetElsewhere(m: Fields, path: Path, v: Value, q: Path)
    requires path != [] && q != [] && Diverge(path, q)
    ensures Lookup(SetOrKeep(m, path, v), q) == Lookup(m, q)
    decreases |path|
  {
    if path[0] == q[0] {
      DivergeBelow(path, q);
      if path[0] !in m || m[path[0]].Obj? {
        var child := if path[0] in m then m[path[0]].fields else map[];
        SetElsewhere(child, path[1..], v, q[1..]);
      }
    }
  }

  lemma {:induction false} RemoveElsewhere(m: Fields, path: Path, q: Path)
    requires path != [] && q != [] && Diverge(path, q)
    ensures Lookup(RemoveNested(m, path), q) == Lookup(m, q)
    decreases |path|
  {
    if path[0] == q[0] {
      DivergeBelow(path, q);
      if path[0] in m && m[path[0]].Obj? {
        RemoveElsewhere(m[path[0]].fields, path[1..], q[1..]);
      }
    }
  }

  /** Nothing is there, or an object. */
  predicate Open(v: Option<Value>) {
    v.None? || v.value.Obj?
  }

  /** A path can be written exactly when every step before the last is missing or an object. */
  lemma {:induction false} SetExactly(m: Fields, path: Path, v: Value)
    requires path != []
    ensures SetNested(m, path, v).Some? <==> forall i | 0 < i < |path| :: Open(Lookup(m, path[..i]))
    decreases |path|
  {
    if |path| > 1 {
      var child := if path[0] in m && m[path[0]].Obj? then m[path[0]].fields else map[];
      SetExactly(child, path[1..], v);
      assert Lookup(m, path[..1]) == Get(m, path[0]);
      forall i | 1 < i < |path|
        ensures Open(Get(m, path[0])) ==> Open(Lookup(m, path[..i])) == Open(Lookup(child, path[1..][..i - 1]))
      {
        assert path[..i][1..] == path[1..][..i - 1];
        assert path[0] !in m ==> Lookup(child, path[1..][..i - 1]) == None;
      }
      if forall i | 0 < i < |path| :: Open(Lookup(m, path[..i])) {
        forall i | 0 < i < |path[1..]| ensures Open(Lookup(child, path[1..][..i])) {
          assert Open(Lookup(m, path[..i + 1]));
        }
      }
      if SetNested(m, path, v).Some? {
        forall i | 0 < i < |path| ensures Open(Lookup(m, path[..i])) {
          if i > 1 {
            assert Open(Lookup(child, path[1..][..i - 1]));
          }
        }
      }
    }
  }
}
