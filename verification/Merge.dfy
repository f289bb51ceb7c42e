/**
 The update-in-place overlay (`mergeMap`), its relation to JSON Merge Patch
 (section 2 of RFC 7396), and what it does at every path of the object.
 */
module Merge {
  import opened Options
  import opened Json

  /** What one member becomes, given the live member and the manifest's member. */
  function Overlay(base: Option<Value>, over: Option<Value>): Option<Value>
  {
    match over
    case None => base
    case Some(Null) => None
    case Some(Obj(of)) =>
      if base.Some? && base.value.Obj? then Some(Obj(MergeMap(base.value.fields, of))) else over
    case Some(_) => over
  }

  function MergeMap(base: Fields, over: Fields): Fields
    decreases Obj(over)
  {
    map k | k in base.Keys + over.Keys && !(k in over && over[k].Null?) ::
      if k !in over then base[k]
      else if over[k].Obj? && k in base && base[k].Obj?
        then Obj(MergeMap(base[k].fields, over[k].fields))
      else over[k]
  }

  lemma MergeAt(base: Fields, over: Fields, k: string)
    ensures Get(MergeMap(base, over), k) == Overlay(Get(base, k), Get(over, k))
  {
  }

  /** `mergeMap` itself: a fresh map filled from the live object, then edited member by member. */
  method Merge(base: Fields, over: Fields) returns (out: Fields)
    ensures out == MergeMap(base, over)
    decreases Obj(over)
  {
    out := base;
    var todo := over.Keys;
    while todo != {}
      invariant todo <= over.Keys
      invariant forall k :: Get(out, k) ==
                  if k in todo then Get(base, k) else Overlay(Get(base, k), Get(over, k))
      decreases |todo|
    {
      var k :| k in todo;
      todo := todo - {k};
      var v := over[k];
      if v.Null? {
        out := out - {k};
      } else if v.Obj? && k in out && out[k].Obj? {
        assert Get(out, k) == Get(base, k);
        var sub := Merge(out[k].fields, v.fields);
        out := out[k := Obj(sub)];
      } else {
        assert Get(out, k) == Get(base, k);
        out := out[k := v];
      }
    }
    forall k ensures Get(out, k) == Get(MergeMap(base, over), k) {
      MergeAt(base, over, k);
    }
    SameMembers(out, MergeMap(base, over));
  }

  // ---------------------------------------------------------------- RFC 7396

  /** `MergePatch(Target, Patch)` of section 2 of RFC 7396; an absent target is a non-object. */
  function MergePatch(target: Option<Value>, patch: Value): Value
    decreases patch, 1
  {
    if patch.Obj? then
      var t := if target.Some? && target.value.Obj? then target.value.fields else map[];
      Obj(PatchMembers(t, patch.fields))
    else patch
  }

  function PatchMembers(target: Fields, patch: Fields): Fields
    decreases Obj(patch), 0
  {
    map k | k in target.Keys + patch.Keys && !(k in patch && patch[k].Null?) ::
      if k !in patch then target[k] else MergePatch(Get(target, k), patch[k])
  }

  /** No member is null, at any object depth (arrays are opaque to both merges). */
  predicate NullFree(m: Fields)
    decreases Obj(m)
  {
    forall k | k in m :: !m[k].Null? && (m[k].Obj? ==> NullFree(m[k].fields))
  }

  /** Every object the manifest lays over a non-object is free of nulls. */
  predicate Clean(base: Fields, over: Fields)
    decreases Obj(over)
  {
    forall k | k in over && over[k].Obj? ::
      if k in base && base[k].Obj? then Clean(base[k].fields, over[k].fields)
      else NullFree(over[k].fields)
  }

  lemma {:induction false} PatchOntoNothing(p: Fields)
    ensures PatchMembers(map[], p) == p <==> NullFree(p)
    decreases Obj(p)
  {
    var r := PatchMembers(map[], p);
    forall k | k in p && !p[k].Null?
      ensures r[k] == p[k] <==> (p[k].Obj? ==> NullFree(p[k].fields))
    {
      assert r[k] == MergePatch(None, p[k]);
      if p[k].Obj? {
        PatchOntoNothing(p[k].fields);
      }
    }
    if NullFree(p) {
      assert r == p;
    } else {
      var k :| k in p && (p[k].Null? || (p[k].Obj? && !NullFree(p[k].fields)));
      assert k !in r || r[k] != p[k];
    }
  }

  /** The overlay is JSON Merge Patch exactly when no null sits in a newly introduced object. */
  lemma {:induction false} MergeIsMergePatch(base: Fields, over: Fields)
    ensures MergeMap(base, over) == PatchMembers(base, over) <==> Clean(base, over)
    decreases Obj(over)
  {
    var m, r := MergeMap(base, over), PatchMembers(base, over);
    assert m.Keys == r.Keys;
    forall k | k in over && !over[k].Null?
      ensures m[k] == r[k] <==>
              (over[k].Obj? ==>
                 if k in base && base[k].Obj? then Clean(base[k].fields, over[k].fields)
                 else NullFree(over[k].fields))
    {
      assert r[k] == MergePatch(Get(base, k), over[k]);
      if !over[k].Obj? {
      } else if k in base && base[k].Obj? {
        MergeIsMergePatch(base[k].fields, over[k].fields);
      } else {
        PatchOntoNothing(over[k].fields);
      }
    }
    if Clean(base, over) {
      assert m == r;
    } else {
      var k :| k in over && over[k].Obj? &&
               !(if k in base && base[k].Obj? then Clean(base[k].fields, over[k].fields)
                 else NullFree(over[k].fields));
      assert m[k] != r[k];
    }
  }

  // ------------------------------------------------------------- idempotence

  lemma {:induction false} MergeOntoItself(p: Fields)
    ensures MergeMap(p, p) == p <==> NullFree(p)
    decreases Obj(p)
  {
    var r := MergeMap(p, p);
    forall k | k in p && p[k].Obj?
      ensures r[k] == p[k] <==> NullFree(p[k].fields)
    {
      MergeOntoItself(p[k].fields);
    }
    if NullFree(p) {
      assert r == p;
    } else {
      var k :| k in p && (p[k].Null? || (p[k].Obj? && !NullFree(p[k].fields)));
      assert k !in r || r[k] != p[k];
    }
  }

  /** Applying the same manifest again changes nothing, exactly under the same condition. */
  lemma {:induction false} MergeIdempotent(base: Fields, over: Fields)
    ensures MergeMap(MergeMap(base, over), over) == MergeMap(base, over) <==> Clean(base, over)
    decreases Obj(over)
  {
    var m := MergeMap(base, over);
    var r := MergeMap(m, over);
    assert m.Keys == r.Keys;
    forall k | k in over && over[k].Obj?
      ensures m[k] == r[k] <==>
              if k in base && base[k].Obj? then Clean(base[k].fields, over[k].fields)
              else NullFree(over[k].fields)
    {
      if k in base && base[k].Obj? {
        MergeIdempotent(base[k].fields, over[k].fields);
      } else {
        MergeOntoItself(over[k].fields);
      }
    }
    if Clean(base, over) {
      assert m == r;
    } else {
      var k :| k in over && over[k].Obj? &&
               !(if k in base && base[k].Obj? then Clean(base[k].fields, over[k].fields)
                 else NullFree(over[k].fields));
      assert m[k] != r[k];
    }
  }

  // ------------------------------------------------------- path-level frame

  /** The live object has objects all the way to the parent of `path`. */
  predicate ParentIsObject(m: Fields, path: Path)
    requires path != []
    decreases |path|
  {
    |path| == 1 || (path[0] in m && m[path[0]].Obj? && ParentIsObject(m[path[0]].fields, path[1..]))
  }

  /** What a manifest says about a path. */
  datatype Setting =
    | Unset               // some member on the way is missing, so the manifest is silent
    | Blocked             // a strict prefix of the path is set to a non-object
    | Sets(value: Value)  // the path itself carries this value

  function SettingAt(over: Fields, path: Path): Setting
    requires path != []
    decreases |path|
  {
    if path[0] !in over then Unset
    else if |path| == 1 then Sets(over[path[0]])
    else if over[path[0]].Obj? then SettingAt(over[path[0]].fields, path[1..])
    else Blocked
  }

  /** The merged value at any path, read off the live value and the manifest's setting. */
  function MergedAt(live: Option<Value>, parentIsObject: bool, setting: Setting): Option<Value> {
    match setting
    case Unset => live
    case Blocked => None
    case Sets(Null) => if parentIsObject then None else Some(Null)
    case Sets(Obj(of)) =>
      Some(Obj(if live.Some? && live.value.Obj? then MergeMap(live.value.fields, of) else of))
    case Sets(v) => Some(v)
  }

  /** Members the manifest lacks are absent from an object stored verbatim. */
  lemma {:induction false} VerbatimAt(over: Fields, path: Path)
    requires path != []
    ensures Lookup(over, path) ==
            if SettingAt(over, path).Sets? then Some(SettingAt(over, path).value) else None
    decreases |path|
  {
    if |path| > 1 && path[0] in over && over[path[0]].Obj? {
      VerbatimAt(over[path[0]].fields, path[1..]);
    }
  }

  /** The whole object is determined path by path: nothing else is added, lost or moved. */
  lemma {:induction false} PathFrame(base: Fields, over: Fields, path: Path)
    requires path != []
    ensures Lookup(MergeMap(base, over), path) ==
            MergedAt(Lookup(base, path), ParentIsObject(base, path), SettingAt(over, path))
    decreases |path|
  {
    var k := path[0];
    MergeAt(base, over, k);
    if |path| > 1 && k in over && over[k].Obj? {
      if k in base && base[k].Obj? {
        PathFrame(base[k].fields, over[k].fields, path[1..]);
      } else {
        VerbatimAt(over[k].fields, path[1..]);
      }
    }
  }

  // --------------------------------------------------------- member by member

  /** One member of `Clean`. */
  predicate CleanAt(base: Option<Value>, over: Option<Value>) {
    match over
    case Some(Obj(of)) => if base.Some? && base.value.Obj? then Clean(base.value.fields, of) else NullFree(of)
    case _ => true
  }

  lemma CleanByMember(base: Fields, over: Fields)
    ensures Clean(base, over) <==> forall k :: CleanAt(Get(base, k), Get(over, k))
  {
    if forall k :: CleanAt(Get(base, k), Get(over, k)) {
      forall k | k in over && over[k].Obj?
        ensures if k in base && base[k].Obj? then Clean(base[k].fields, over[k].fields) else NullFree(over[k].fields)
      {
        assert CleanAt(Get(base, k), Get(over, k));
      }
    }
  }

  lemma CleanWithout(base: Fields, over: Fields, k: string)
    ensures Clean(base, over) <==> Clean(base, over - {k}) && CleanAt(Get(base, k), Get(over, k))
  {
    CleanByMember(base, over);
    CleanByMember(base, over - {k});
    forall j | j != k ensures Get(over - {k}, j) == Get(over, j) { }
  }

  lemma OverlayTwice(base: Option<Value>, over: Option<Value>)
    ensures Overlay(Overlay(base, over), over) == Overlay(base, over) <==> CleanAt(base, over)
  {
    if over.Some? && over.value.Obj? {
      if base.Some? && base.value.Obj? {
        MergeIdempotent(base.value.fields, over.value.fields);
      } else {
        MergeOntoItself(over.value.fields);
      }
    }
  }

  lemma NullFreeByMember(m: Fields)
    ensures NullFree(m) <==> forall k :: Overlay(Get(m, k), Get(m, k)) == Get(m, k)
  {
    MergeOntoItself(m);
    forall k ensures Get(MergeMap(m, m), k) == Overlay(Get(m, k), Get(m, k)) {
      MergeAt(m, m, k);
    }
    if forall k :: Overlay(Get(m, k), Get(m, k)) == Get(m, k) {
      SameMembers(MergeMap(m, m), m);
    }
  }

  // ------------------------------------------------ merging after a correction

  /** After one member was written, merging again disturbs nothing else exactly when the rest is clean. */
  lemma OneMemberWritten(base: Fields, over: Fields, k: string, x: Value)
    ensures var t := MergeMap(base, over)[k := x];
            && (MergeMap(t, over)[k := x] == t <==> Clean(base, over - {k}))
            && Get(MergeMap(t, over), k) == Overlay(Some(x), Get(over, k))
  {
    var a := MergeMap(base, over);
    var t := a[k := x];
    var r := MergeMap(t, over)[k := x];
    forall j
      ensures j != k ==> (Get(r, j) == Get(t, j) <==> CleanAt(Get(base, j), Get(over - {k}, j)))
      ensures Get(r, k) == Get(t, k) && CleanAt(Get(base, k), Get(over - {k}, k))
      ensures Get(MergeMap(t, over), k) == Overlay(Some(x), Get(over, k))
    {
      MergeAt(base, over, j);
      MergeAt(t, over, j);
      MergeAt(t, over, k);
      OverlayTwice(Get(base, j), Get(over, j));
    }
    CleanByMember(base, over - {k});
    if Clean(base, over - {k}) {
      SameMembers(r, t);
    }
  }

  /** The same for an object that was stored verbatim. */
  lemma OneMemberOfWhole(of: Fields, k: string, x: Value)
    ensures var t := of[k := x];
            && (MergeMap(t, of)[k := x] == t <==> NullFree(of - {k}))
            && Get(MergeMap(t, of), k) == Overlay(Some(x), Get(of, k))
  {
    var t := of[k := x];
    var r, rest := MergeMap(t, of)[k := x], of - {k};
    forall j
      ensures j != k ==> Get(r, j) == Overlay(Get(rest, j), Get(rest, j)) && Get(t, j) == Get(rest, j)
      ensures Get(r, k) == Get(t, k) && Get(rest, k) == None
      ensures Get(MergeMap(t, of), k) == Overlay(Some(x), Get(of, k))
    {
      MergeAt(t, of, j);
      MergeAt(t, of, k);
    }
    NullFreeByMember(rest);
    if NullFree(rest) {
      SameMembers(r, t);
    }
    if r == t {
      forall j ensures Overlay(Get(rest, j), Get(rest, j)) == Get(rest, j) { }
    }
  }

  /** The object at `k`, or an empty one where there is none. */
  function Child(m: Fields, k: string): Fields {
    if k in m && m[k].Obj? then m[k].fields else map[]
  }

  /** Correcting below the member `k` restores the object exactly when it restores that member and nothing else
   moved. */
  lemma MemberRestored(m: Fields, t: Fields, inner: Fields, path: Path, v: Value)
    requires |path| > 1 && Get(t, path[0]) == Some(Obj(inner))
    requires path[0] in m ==> m[path[0]].Obj?
    requires SetNested(Child(m, path[0]), path[1..], v).Some?
    ensures SetNested(m, path, v).Some?
    ensures SetNested(m, path, v) == Some(t) <==>
            m[path[0] := Obj(inner)] == t && SetNested(Child(m, path[0]), path[1..], v) == Some(inner)
  {
    var k := path[0];
    var z := SetNested(Child(m, k), path[1..], v).value;
    assert SetNested(m, path, v) == Some(m[k := Obj(z)]);
    assert m[k := Obj(z)][k] == Obj(z);
  }

  /**
   An overlay was corrected at one path, and the manifest is merged again: correcting the path
   again gives the corrected object back exactly when the rest of the manifest is clean.
   */
  lemma {:induction false} CorrectionSurvives(base: Fields, over: Fields, path: Path, v: Value)
    requires path != [] && SetNested(MergeMap(base, over), path, v).Some?
    ensures var t := SetNested(MergeMap(base, over), path, v).value;
            && SetNested(MergeMap(t, over), path, v).Some?
            && (SetNested(MergeMap(t, over), path, v) == Some(t) <==> Clean(base, RemoveNested(over, path)))
    decreases |path|, 1
  {
    var k, a := path[0], MergeMap(base, over);
    if |path| == 1 {
      OneMemberWritten(base, over, k, v);
    } else {
      var inner := SetNested(Child(a, k), path[1..], v).value;
      ChildRestored(base, over, path, v, inner);
      CorrectionStep(base, over, path, v, inner);
    }
  }

  lemma CorrectionStep(base: Fields, over: Fields, path: Path, v: Value, inner: Fields)
    requires |path| > 1
    requires var m := MergeMap(MergeMap(base, over)[path[0] := Obj(inner)], over);
             && (path[0] in m ==> m[path[0]].Obj?)
             && SetNested(Child(m, path[0]), path[1..], v).Some?
             && (SetNested(Child(m, path[0]), path[1..], v) == Some(inner) <==>
                   CleanAt(Get(base, path[0]), Get(RemoveNested(over, path), path[0])))
    ensures var t := MergeMap(base, over)[path[0] := Obj(inner)];
            && SetNested(MergeMap(t, over), path, v).Some?
            && (SetNested(MergeMap(t, over), path, v) == Some(t) <==> Clean(base, RemoveNested(over, path)))
  {
    var k, part := path[0], RemoveNested(over, path);
    var t := MergeMap(base, over)[k := Obj(inner)];
    OneMemberWritten(base, over, k, Obj(inner));
    MemberRestored(MergeMap(t, over), t, inner, path, v);
    CleanWithout(base, part, k);
    assert part - {k} == over - {k};
  }

  lemma {:induction false} ChildRestored(base: Fields, over: Fields, path: Path, v: Value, inner: Fields)
    requires |path| > 1 && SetNested(MergeMap(base, over), path, v).Some?
    requires SetNested(Child(MergeMap(base, over), path[0]), path[1..], v) == Some(inner)
    ensures var k, m := path[0], MergeMap(MergeMap(base, over)[path[0] := Obj(inner)], over);
            && (k in m ==> m[k].Obj?)
            && SetNested(Child(m, k), path[1..], v).Some?
            && (SetNested(Child(m, k), path[1..], v) == Some(inner) <==>
                  CleanAt(Get(base, k), Get(RemoveNested(over, path), k)))
    decreases |path|, 0
  {
    var k := path[0];
    MergeAt(base, over, k);
    MergeAt(MergeMap(base, over)[k := Obj(inner)], over, k);
    SetThenLookup(Child(MergeMap(base, over), k), path[1..], v);
    if k in over && over[k].Obj? {
      if k in base && base[k].Obj? {
        CorrectionSurvives(base[k].fields, over[k].fields, path[1..], v);
      } else {
        CorrectionOnWhole(over[k].fields, path[1..], v);
      }
    }
  }

  /** The same for an object that was stored verbatim. */
  lemma {:induction false} CorrectionOnWhole(of: Fields, path: Path, v: Value)
    requires path != [] && SetNested(of, path, v).Some?
    ensures var t := SetNested(of, path, v).value;
            && SetNested(MergeMap(t, of), path, v).Some?
            && (SetNested(MergeMap(t, of), path, v) == Some(t) <==> NullFree(RemoveNested(of, path)))
    decreases |path|, 0
  {
    var k := path[0];
    if |path| == 1 {
      OneMemberOfWhole(of, k, v);
    } else {
      var inner := SetNested(Child(of, k), path[1..], v).value;
      var t, part := of[k := Obj(inner)], RemoveNested(of, path);
      MergeAt(t, of, k);
      SetThenLookup(Child(of, k), path[1..], v);
      if k in of {
        CorrectionOnWhole(of[k].fields, path[1..], v);
      }
      OneMemberOfWhole(of, k, Obj(inner));
      MemberRestored(MergeMap(t, of), t, inner, path, v);
      assert part - {k} == of - {k};
      NullFreeWithout(part, k);
    }
  }

  lemma NullFreeWithout(m: Fields, k: string)
    ensures NullFree(m) <==>
            NullFree(m - {k}) && (k in m ==> !m[k].Null? && (m[k].Obj? ==> NullFree(m[k].fields)))
  {
    if NullFree(m - {k}) && (k in m ==> !m[k].Null? && (m[k].Obj? ==> NullFree(m[k].fields))) {
      forall j | j in m ensures !m[j].Null? && (m[j].Obj? ==> NullFree(m[j].fields)) {
        assert j != k ==> j in m - {k} && (m - {k})[j] == m[j];
      }
    }
  }
}
