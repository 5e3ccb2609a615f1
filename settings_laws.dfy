/**
 * What the settings store promises, stated over `Merged` and
 * `LoadedSettings`: how a patch is applied, how arrays and nulls behave,
 * and how user settings take precedence over defaults.
 */
module SettingsLaws {
  import opened JsValue
  import opened SettingsStore

  /**
   * `r` carries everything the patch `s` says: each scalar of the patch at
   * its path, an object-typed value wherever the patch has null, and, below
   * every array or object of the patch, a container that covers it in turn.
   */
  ghost predicate Covers(r: Value, s: Value)
    decreases s
  {
    IsContainer(r) &&
    forall k :: k in Entries(s) ==>
      k in Props(r) &&
      if IsContainer(Entries(s)[k]) then Covers(Props(r)[k], Entries(s)[k])
      else if Entries(s)[k].Null? then IsObjectTyped(Props(r)[k])
      else Props(r)[k] == Entries(s)[k]
  }

  /** A patch with no null anywhere inside it. */
  ghost predicate NullFree(s: Value)
    decreases s
  {
    forall k :: k in Entries(s) ==>
      !Entries(s)[k].Null? && (IsContainer(Entries(s)[k]) ==> NullFree(Entries(s)[k]))
  }

  /** A patch that enumerates no keys (`{}`, `[]`, null, a number, a boolean, "") changes nothing. */
  lemma EmptyPatchChangesNothing(t: Value, s: Value)
    requires IsContainer(t) && Entries(s) == map[]
    ensures Merged(t, s) == t
  {
    ContainerExtensionality(Merged(t, s), t);
  }

  /** Merging into `{}` copies what the patch enumerates, whatever the patch's kind. */
  lemma MergedIntoEmpty(s: Value)
    ensures Merged(EmptyObject, s) == Obj(Entries(s))
  {
    var r := Merged(EmptyObject, s);
    assert Props(r) == Entries(s);
  }

  /** A container covers itself. */
  lemma {:induction false} CoversSelf(v: Value)
    requires IsContainer(v)
    ensures Covers(v, v)
    decreases v
  {
    forall k | k in Entries(v) && IsContainer(Entries(v)[k])
      ensures Covers(Props(v)[k], Entries(v)[k])
    {
      CoversSelf(Entries(v)[k]);
    }
  }

  /** After a merge the target carries the whole patch, at every depth. */
  lemma {:induction false} MergedCoversPatch(t: Value, s: Value)
    requires IsContainer(t)
    ensures Covers(Merged(t, s), s)
    decreases s
  {
    var r, src, tp := Merged(t, s), Entries(s), Props(t);
    forall k | k in src
      ensures k in Props(r) &&
        if IsContainer(src[k]) then Covers(Props(r)[k], src[k])
        else if src[k].Null? then IsObjectTyped(Props(r)[k])
        else Props(r)[k] == src[k]
    {
      if k in tp && IsObjectTyped(tp[k]) && IsObjectTyped(src[k]) {
        assert Props(r)[k] == Merged(OrEmpty(tp[k]), src[k]);
        if IsContainer(src[k]) {
          MergedCoversPatch(OrEmpty(tp[k]), src[k]);
        }
      } else if IsContainer(src[k]) {
        assert Props(r)[k] == src[k];
        CoversSelf(src[k]);
      }
    }
  }

  /** A null patch leaves a container exactly as it was. */
  lemma NullPatchIsNoOp(t: Value)
    requires IsContainer(t)
    ensures Merged(t, Null) == t
  {
    EmptyPatchChangesNothing(t, Null);
  }

  /** A null in the patch over an existing array or object leaves that property untouched. */
  lemma NullOverContainerKeepsIt(t: Value, s: Value, k: string)
    requires IsContainer(t) && k in Props(t) && IsContainer(Props(t)[k])
    requires k in Entries(s) && Entries(s)[k].Null?
    ensures Props(Merged(t, s))[k] == Props(t)[k]
  {
    NullPatchIsNoOp(Props(t)[k]);
  }

  /** A null target property under an array or object patch is replaced by a copy of what the patch enumerates. */
  lemma NullSlotBecomesObject(t: Value, s: Value, k: string)
    requires IsContainer(t) && k in Props(t) && Props(t)[k].Null?
    requires k in Entries(s) && IsContainer(Entries(s)[k])
    ensures Props(Merged(t, s))[k] == Obj(Entries(Entries(s)[k]))
  {
    MergedIntoEmpty(Entries(s)[k]);
  }

  /** Element `i` of the element-by-element merge of two arrays. */
  function MergedElement(a: seq<Value>, b: seq<Value>, i: nat): Value
    requires i < |a| || i < |b|
  {
    if i >= |b| then a[i]
    else if i < |a| && IsObjectTyped(a[i]) && IsObjectTyped(b[i]) then Merged(OrEmpty(a[i]), b[i])
    else b[i]
  }

  /** The element-by-element merge of two arrays. */
  function MergedElements(a: seq<Value>, b: seq<Value>): (r: seq<Value>)
    ensures |r| == if |a| < |b| then |b| else |a|
    ensures forall i :: 0 <= i < |r| ==> r[i] == MergedElement(a, b, i)
  {
    var n := if |a| < |b| then |b| else |a|;
    seq(n, i requires 0 <= i < n => MergedElement(a, b, i))
  }

  /** The property at index `i` of the merge of two arrays is the merged element. */
  lemma MergedArrayAt(a: seq<Value>, b: seq<Value>, i: nat)
    requires i < |a| || i < |b|
    ensures var r := Merged(ArrayOf(a), ArrayOf(b));
      IndexKey(i) in Props(r) && Props(r)[IndexKey(i)] == MergedElement(a, b, i)
  {
    Decimal.NatToStringIsInjective();
    var k, src, tp := IndexKey(i), Entries(ArrayOf(b)), Props(ArrayOf(a));
    var r := Merged(ArrayOf(a), ArrayOf(b));
    assert k in tp <==> i < |a|;
    assert k in src <==> i < |b|;
    assert i < |a| ==> tp[k] == a[i];
    assert i < |b| ==> src[k] == b[i];
    assert k in Props(r);
    if i >= |b| {
      assert Props(r)[k] == tp[k];
    } else {
      MergedAt(ArrayOf(a), ArrayOf(b), k);
    }
  }

  lemma MapExtensionality(m: map<string, Value>, n: map<string, Value>)
    requires m.Keys == n.Keys
    requires forall k :: k in m ==> m[k] == n[k]
    ensures m == n
  {
  }

  /** The index keys of an array of length `n`. */
  ghost function IndexKeys(n: nat): set<string>
  {
    set i | 0 <= i < n :: IndexKey(i)
  }

  lemma ArrayOfKeys(s: seq<Value>)
    ensures Props(ArrayOf(s)).Keys == IndexKeys(|s|)
  {
  }

  lemma MergedArrayKeys(a: seq<Value>, b: seq<Value>)
    ensures Props(Merged(ArrayOf(a), ArrayOf(b))).Keys == IndexKeys(|MergedElements(a, b)|)
  {
    ArrayOfKeys(a);
    ArrayOfKeys(b);
    var n := |MergedElements(a, b)|;
    assert IndexKeys(|a|) + IndexKeys(|b|) == IndexKeys(n);
  }

  /** Arrays are merged index by index, never replaced or concatenated. */
  lemma ArraysMergeIndexWise(a: seq<Value>, b: seq<Value>)
    ensures Merged(ArrayOf(a), ArrayOf(b)) == ArrayOf(MergedElements(a, b))
  {
    var r, e := Merged(ArrayOf(a), ArrayOf(b)), ArrayOf(MergedElements(a, b));
    var n := |MergedElements(a, b)|;
    MergedArrayKeys(a, b);
    ArrayOfKeys(MergedElements(a, b));
    forall k | k in IndexKeys(n) ensures Props(r)[k] == Props(e)[k] {
      var i :| 0 <= i < n && k == IndexKey(i);
      MergedArrayAt(a, b, i);
    }
    MapExtensionality(Props(r), Props(e));
    ContainerExtensionality(r, e);
  }

  /** Merging a null-free container into itself gives it back. */
  lemma {:induction false} SelfMergeIsIdentity(v: Value)
    requires IsContainer(v) && NullFree(v)
    ensures Merged(v, v) == v
    decreases v
  {
    var r, p := Merged(v, v), Props(v);
    forall k | k in p ensures Props(r)[k] == p[k] {
      if IsContainer(p[k]) {
        SelfMergeIsIdentity(p[k]);
      }
    }
    ContainerExtensionality(r, v);
  }

  /** Applying a null-free patch a second time changes nothing more. */
  lemma {:induction false} NullFreePatchIsIdempotent(t: Value, s: Value)
    requires IsContainer(t) && NullFree(s)
    ensures Merged(Merged(t, s), s) == Merged(t, s)
    decreases s
  {
    var m := Merged(t, s);
    var r, src, tp := Merged(m, s), Entries(s), Props(t);
    forall k | k in src ensures Props(r)[k] == Props(m)[k] {
      if IsContainer(src[k]) {
        if k in tp && IsObjectTyped(tp[k]) {
          NullFreePatchIsIdempotent(OrEmpty(tp[k]), src[k]);
        } else {
          SelfMergeIsIdentity(src[k]);
        }
      }
    }
    ContainerExtensionality(r, m);
  }

  /** With a null in the patch, applying it twice differs from applying it once: `{a: null}` then `{a: {}}`. */
  lemma NullPatchIsNotIdempotent()
    ensures var s := Obj(map["a" := Null]);
            Merged(Merged(EmptyObject, s), s) != Merged(EmptyObject, s)
  {
    var s := Obj(map["a" := Null]);
    var once := Merged(EmptyObject, s);
    assert Props(once)["a"] == Null;
    var twice := Merged(once, s);
    assert Props(twice)["a"] == Merged(EmptyObject, Null);
    NullPatchIsNoOp(EmptyObject);
  }

  /** merge({a: {b: 1, c: 2}}, {a: {b: 5}}) is {a: {b: 5, c: 2}}. */
  lemma NestedOverrideKeepsSiblings()
    ensures Merged(Obj(map["a" := Obj(map["b" := Num(1.0), "c" := Num(2.0)])]),
                   Obj(map["a" := Obj(map["b" := Num(5.0)])]))
         == Obj(map["a" := Obj(map["b" := Num(5.0), "c" := Num(2.0)])])
  {
    var inner := Merged(Obj(map["b" := Num(1.0), "c" := Num(2.0)]), Obj(map["b" := Num(5.0)]));
    assert Props(inner) == map["b" := Num(5.0), "c" := Num(2.0)];
    var outer := Merged(Obj(map["a" := Obj(map["b" := Num(1.0), "c" := Num(2.0)])]),
                        Obj(map["a" := Obj(map["b" := Num(5.0)])]));
    assert Props(outer) == map["a" := inner];
  }

  /**
   * After `loadSettings(defaults, user)`: the keys are those of both; a key
   * only in the defaults has the default's value; a key of `user` with a
   * scalar value has `user`'s value even when the defaults have the key; and
   * the settings carry all of `user` at every depth.
   */
  lemma {:induction false} UserSettingsTakePrecedence(defaults: Value, user: Value)
    ensures var r := LoadedSettings(defaults, user);
      && r.Keys == Entries(defaults).Keys + Entries(user).Keys
      && (forall k :: k in Entries(defaults) && k !in Entries(user) ==> r[k] == Entries(defaults)[k])
      && (forall k :: k in Entries(user) && !IsObjectTyped(Entries(user)[k]) ==> r[k] == Entries(user)[k])
      && Covers(Obj(r), user)
  {
    MergedIntoEmpty(defaults);
    MergedCoversPatch(Obj(Entries(defaults)), user);
    ContainerExtensionality(Obj(LoadedSettings(defaults, user)), Merged(Obj(Entries(defaults)), user));
  }
}
