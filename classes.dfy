/**
 * classes.js, version 0.1.6: classes with mixins, a swappable namespace for
 * name lookup and registration, and a fluent `Class(name).extends(..).uses(..)`
 * builder.
 */
module Classes {
  import opened ObjectModel
  import opened ClassCore

  const InvalidClassName: string := "Invalid class name value"
  const InvalidAssignName: string := "Invalid class/mixin name value"

  /** The active namespace that string parents and mixin names are resolved
      against and string names are registered in. */
  class Namespace {
    var current: Value

    ghost predicate Valid()
      reads this
    {
      Truthy(current)
    }

    /** At load time the namespace is the global object. */
    constructor ()
      ensures current == Global && Valid()
    {
      current := Global;
    }

    /** `Class.namespace(ns)`: a falsy argument goes back to the global object. */
    method Set(ns: Value)
      modifies this
      ensures current == (if Truthy(ns) then ns else Global)
      ensures Valid()
    {
      current := if Truthy(ns) then ns else Global;
    }
  }

  // ---------------------------------------------------------------------------
  //  Names, parents and mixins

  /** The value recorded as `__class__`: a truthy object name `[holder, key]`
      is reduced to its `key`, and one whose key is falsy is refused. */
  function NormalizeName(st: Store, name: Value): (r: Result<Value>)
    ensures !(Truthy(name) && TypeOf(name) == "object") ==> r == Ok(name)
    ensures Truthy(name) && TypeOf(name) == "object" ==>
              (r.Ok? <==> Truthy(Index(st, name, 1))) && (r.Ok? ==> r.value == Index(st, name, 1))
    ensures r.Err? ==> r.error == TypeError(InvalidClassName)
  {
    if TypeOf(name) == "object" && Truthy(name) then
      var key := Index(st, name, 1);
      if Truthy(key) then Ok(key) else Err(TypeError(InvalidClassName))
    else Ok(name)
  }

  /** The parent a build uses: `Object` when none is given, the namespace's
      entry when a name is given. */
  function ResolveParent(st: Store, ns: Value, parent: Value): (r: Value)
    ensures !Truthy(parent) ==> r == ObjectCtor
    ensures Truthy(parent) && parent.Str? ==> r == Get(st, ns, parent.s)
    ensures Truthy(parent) && !parent.Str? ==> r == parent
  {
    var p := if Truthy(parent) then parent else ObjectCtor;
    if p.Str? then Get(st, ns, p.s) else p
  }

  /** A mixin list element after name resolution. */
  function ResolveMixin(st: Store, ns: Value, m: Value): Value
  {
    if m.Str? then Get(st, ns, m.s) else m
  }

  function ResolveAll(st: Store, ns: Value, items: seq<Value>): (r: seq<Value>)
    ensures |r| == |items|
    ensures forall j | 0 <= j < |items| :: r[j] == ResolveMixin(st, ns, items[j])
  {
    seq(|items|, j requires 0 <= j < |items| => ResolveMixin(st, ns, items[j]))
  }

  /** What `m.mixinTo(self)` copies onto the new prototype: the own entries
      of the constructor object a mixin was made from. None when the call
      throws (`m` is null or undefined, or its `mixinTo` is not a function);
      a `mixinTo` the library did not make is opaque and copies nothing. */
  function MixinEntries(st: Store, m: Value): (r: Option<map<string, Value>>)
    ensures r.None? <==> Nullish(m) || !IsFunc(Get(st, m, "mixinTo"))
  {
    if Nullish(m) then None
    else
      var f := Get(st, m, "mixinTo");
      if f.Closure? && f.kind == MixinToFn && f.owner < |st.mixins| then Some(Own(st, st.mixins[f.owner]))
      else if IsFunc(f) then Some(map[])
      else None
  }

  /** The prototype table after `mixinTo` of each mixin in list order, each
      copying its table's own entries over what is there; None when an
      element is not a mixin. */
  function ApplyMixins(st: Store, t: map<string, Value>, resolved: seq<Value>): (r: Option<map<string, Value>>)
    ensures r.Some? <==> forall j | 0 <= j < |resolved| :: MixinEntries(st, resolved[j]).Some?
    decreases |resolved|
  {
    if resolved == [] then Some(t)
    else
      var n := |resolved| - 1;
      match ApplyMixins(st, t, resolved[..n])
      case None => None
      case Some(before) =>
        match MixinEntries(st, resolved[n])
        case None => None
        case Some(copied) => Some(before + copied)
  }

  /** The position of the first list element that is not a mixin, or the
      list's length when every element is one: where the mixin loop stops. */
  function FirstNonMixin(st: Store, resolved: seq<Value>): (i: nat)
    ensures i <= |resolved|
    ensures forall j | 0 <= j < i :: MixinEntries(st, resolved[j]).Some?
    ensures i < |resolved| ==> MixinEntries(st, resolved[i]).None?
    decreases |resolved|
  {
    if resolved == [] || MixinEntries(st, resolved[0]).None? then 0
    else 1 + FirstNonMixin(st, resolved[1..])
  }

  /** The last mixin in the list whose table has key `k`, or -1. */
  function LastProvider(st: Store, resolved: seq<Value>, k: string): (j: int)
    ensures -1 <= j < |resolved|
    ensures j >= 0 ==> MixinEntries(st, resolved[j]).Some? && k in MixinEntries(st, resolved[j]).value
    ensures forall i | j < i < |resolved| && MixinEntries(st, resolved[i]).Some? :: k !in MixinEntries(st, resolved[i]).value
    decreases |resolved|
  {
    if resolved == [] then -1
    else
      var n := |resolved| - 1;
      if MixinEntries(st, resolved[n]).Some? && k in MixinEntries(st, resolved[n]).value then n
      else LastProvider(st, resolved[..n], k)
  }

  /** Mixin precedence: after applying the list, an entry comes from the last
      mixin that has it, and otherwise from the table the mixins were applied to. */
  lemma {:induction false} MixinPrecedence(st: Store, t: map<string, Value>, resolved: seq<Value>, k: string)
    requires ApplyMixins(st, t, resolved).Some?
    ensures var r := ApplyMixins(st, t, resolved).value;
            var j := LastProvider(st, resolved, k);
            && (j >= 0 ==> k in r && r[k] == MixinEntries(st, resolved[j]).value[k])
            && (j < 0 ==> (k in r <==> k in t) && (k in t ==> r[k] == t[k]))
    decreases |resolved|
  {
    if resolved != [] {
      var n := |resolved| - 1;
      assert resolved[..n][..n] == resolved[..n];
      MixinPrecedence(st, t, resolved[..n], k);
      if LastProvider(st, resolved, k) != n {
        assert LastProvider(st, resolved, k) == LastProvider(st, resolved[..n], k);
        var j := LastProvider(st, resolved, k);
        if j >= 0 {
          assert resolved[..n][j] == resolved[j];
        }
      }
    }
  }

  /** Applying one more element of the list. */
  lemma ApplyMixinsStep(st: Store, t: map<string, Value>, resolved: seq<Value>, i: nat)
    requires i < |resolved|
    ensures ApplyMixins(st, t, resolved[..i + 1])
            == match ApplyMixins(st, t, resolved[..i])
               case None => None
               case Some(before) =>
                 match MixinEntries(st, resolved[i])
                 case None => None
                 case Some(copied) => Some(before + copied)
  {
    assert resolved[..i + 1][..i] == resolved[..i];
  }

  /** Once an element fails to be a mixin, every longer list fails too. */
  lemma {:induction false} ApplyMixinsFailureSticks(st: Store, t: map<string, Value>, resolved: seq<Value>, i: nat)
    requires i <= |resolved| && ApplyMixins(st, t, resolved[..i]).None?
    ensures ApplyMixins(st, t, resolved).None?
    decreases |resolved| - i
  {
    if i < |resolved| {
      assert resolved[..i + 1][..i] == resolved[..i];
      ApplyMixinsFailureSticks(st, t, resolved, i + 1);
    } else {
      assert resolved[..i] == resolved;
    }
  }

  // ---------------------------------------------------------------------------
  //  createClass

  /** The `for-in` loop of `mixinTo`: every entry copied overwrites the
      prototype's entry under the same key. */
  method MixinTo(t: map<string, Value>, entries: map<string, Value>) returns (r: map<string, Value>)
    ensures r == t + entries
  {
    r := t;
    var todo := entries.Keys;
    while todo != {}
      invariant todo <= entries.Keys
      invariant r == t + (map k | k in entries.Keys - todo :: entries[k])
      decreases todo
    {
      var k :| k in todo;
      r := r[k := entries[k]];
      todo := todo - {k};
    }
    assert (map k | k in entries.Keys - todo :: entries[k]) == entries;
  }

  /** The mixin loop of a build, on values: each string element of `items` is
      replaced by the namespace entry it names, and each element's table is
      copied onto `base`. The loop stops at the first element without
      `mixinTo`, which is already replaced; the elements after it are not. */
  method ResolveAndMix(st0: Store, ns: Value, items: seq<Value>, base: map<string, Value>)
    returns (arr: seq<Value>, t: map<string, Value>, ok: bool)
    ensures var resolved := ResolveAll(st0, ns, items);
            var mixed := ApplyMixins(st0, base, resolved);
            var i := FirstNonMixin(st0, resolved);
            && (ok <==> mixed.Some?)
            && (ok ==> arr == resolved && t == mixed.value)
            && (!ok ==> && i < |items| && arr == resolved[..i + 1] + items[i + 1..]
                        && ApplyMixins(st0, base, resolved[..i]) == Some(t))
  {
    ghost var resolved := ResolveAll(st0, ns, items);
    arr, t := items, base;
    var i := 0;
    while i < |items|
      invariant 0 <= i <= |items|
      invariant |arr| == |items|
      invariant forall j | 0 <= j < i :: arr[j] == resolved[j]
      invariant forall j | i <= j < |items| :: arr[j] == items[j]
      invariant forall j | 0 <= j < i :: MixinEntries(st0, resolved[j]).Some?
      invariant ApplyMixins(st0, base, resolved[..i]) == Some(t)
    {
      var m := ResolveMixin(st0, ns, items[i]);
      arr := arr[i := m];
      var copied := MixinEntries(st0, m);
      ApplyMixinsStep(st0, base, resolved, i);
      if copied.None? {
        StoppedAt(st0, resolved, items, arr, i);
        return arr, t, false;
      }
      t := MixinTo(t, copied.value);
      i := i + 1;
    }
    assert resolved[..i] == resolved;
    return arr, t, true;
  }

  /** Where the mixin loop stops at element `i`: that is the first element
      that is not a mixin, and the array is resolved up to and including it. */
  lemma StoppedAt(st: Store, resolved: seq<Value>, items: seq<Value>, arr: seq<Value>, i: nat)
    requires |resolved| == |items| == |arr| && i < |items|
    requires forall j | 0 <= j <= i :: arr[j] == resolved[j]
    requires forall j | i < j < |items| :: arr[j] == items[j]
    requires forall j | 0 <= j < i :: MixinEntries(st, resolved[j]).Some?
    requires MixinEntries(st, resolved[i]).None?
    ensures arr == resolved[..i + 1] + items[i + 1..]
    ensures FirstNonMixin(st, resolved) == i
  {
  }

  /** The mixin loop of a build on the heap: the caller's array receives the
      resolved elements, up to and including the one that fails, and the new
      prototype the mixed table. Reads use the heap as it was when the build
      started. */
  method MixinLoop(h: Heap, st0: Store, ns: Value, c: ClassId, a: nat) returns (ok: bool)
    requires a < |st0.arrays| && h.arrays == st0.arrays && Proto(c) in h.own
    modifies h
    ensures h.classes == old(h.classes) && h.instances == old(h.instances) && h.mixins == old(h.mixins)
    ensures h.own == old(h.own)[Proto(c) := OwnIn(h.own, Proto(c))]
    ensures |h.arrays| == |st0.arrays| && h.arrays == st0.arrays[a := h.arrays[a]]
    ensures var items := st0.arrays[a];
            var resolved := ResolveAll(st0, ns, items);
            var mixed := ApplyMixins(st0, OwnIn(old(h.own), Proto(c)), resolved);
            var i := FirstNonMixin(st0, resolved);
            && (ok <==> mixed.Some?)
            && (ok ==> h.arrays[a] == resolved && OwnIn(h.own, Proto(c)) == mixed.value)
            && (!ok ==> && i < |items| && h.arrays[a] == resolved[..i + 1] + items[i + 1..]
                        && ApplyMixins(st0, OwnIn(old(h.own), Proto(c)), resolved[..i]) == Some(OwnIn(h.own, Proto(c))))
  {
    var arr, t;
    arr, t, ok := ResolveAndMix(st0, ns, h.arrays[a], OwnIn(h.own, Proto(c)));
    h.arrays := h.arrays[a := arr];
    h.own := h.own[Proto(c) := t];
    assert OwnIn(h.own, Proto(c)) == t;
  }

  /** What `createClass(name, parent, mixins, constructor)` leaves behind,
      relating the heap before the build (`st0`) to the heap after it (`st1`);
      `nsv` is the active namespace and `a` the mixin array. The build
      succeeds exactly when the name is valid, the parent exists, every mixin
      list element answers `mixinTo` and the parent has a name. The new
      prototype holds the mixins' entries over `constructor`, then the naming
      entries and `__scope__`, then the constructor object's entries; the new
      class holds the parent's own statics, the naming entries and the
      builtins; each function entry carries its companions. */
  ghost predicate Created(st0: Store, st1: Store, nsv: Value, name: Value, parent: Value, a: nat,
                          ctor: Value, r: Result<Value>)
    requires a < |st0.arrays|
  {
    var c := |st0.classes|;
    var nm := NormalizeName(st0, name);
    var p := ResolveParent(st0, nsv, parent);
    var resolved := ResolveAll(st0, nsv, st0.arrays[a]);
    var mixed := ApplyMixins(st0, map["constructor" := Cls(c)], resolved);
    && st1.instances == st0.instances && st1.mixins == st0.mixins && |st1.arrays| == |st0.arrays|
    && (r.Ok? <==> nm.Ok? && !Nullish(p) && mixed.Some? && ParentName(st0, p).Ok?)
    && (r.Err? ==> Abandoned(st0, st1, nsv, name, parent, a, ctor))
    && (r.Ok? ==>
         var super := Get(st0, p, "prototype");
         var meta := Meta(nm.value, ParentName(st0, p).value, Some(Arr(a)), super);
         var entries := CtorEntries(st0, ctor);
         && r.value == Cls(c)
         && st1.classes == st0.classes + [ClassRec(super, ctor, V016)]
         && st1.arrays == st0.arrays[a := resolved]
         && OwnIn(st1.own, Proto(c)) == mixed.value + meta["__scope__" := Cls(c)] + entries
         && (Cls(c) !in entries.Values ==>
               && OwnIn(st1.own, Cls(c)) == Own(st0, p) + meta + Builtins(c)
               && CompanionsFrom(st0.own, st1.own, c, entries, true)))
  }

  /** What a failed build leaves behind. A refused name or a missing parent
      throws before anything changes. Past that point the class record and
      the two class objects stay allocated: the caller's mixin array holds
      the resolved elements up to and including the one without `mixinTo`,
      and the prototype the mixins before it; or, when every element is a
      mixin and the parent has no name, the whole list is resolved and mixed
      and `__class__` is written on the class and its prototype. */
  ghost predicate Abandoned(st0: Store, st1: Store, nsv: Value, name: Value, parent: Value, a: nat, ctor: Value)
    requires a < |st0.arrays|
  {
    var c := |st0.classes|;
    var nm := NormalizeName(st0, name);
    var p := ResolveParent(st0, nsv, parent);
    if nm.Err? || Nullish(p) then st1 == st0
    else
      var items := st0.arrays[a];
      var resolved := ResolveAll(st0, nsv, items);
      var i := FirstNonMixin(st0, resolved);
      var base := map["constructor" := Cls(c)];
      && st1.classes == st0.classes + [ClassRec(Get(st0, p, "prototype"), ctor, V016)]
      && (forall v | v != Proto(c) && v != Cls(c) :: OwnIn(st1.own, v) == OwnIn(st0.own, v))
      && (i < |items| ==>
            && st1.arrays == st0.arrays[a := resolved[..i + 1] + items[i + 1..]]
            && ApplyMixins(st0, base, resolved[..i]) == Some(OwnIn(st1.own, Proto(c)))
            && OwnIn(st1.own, Cls(c)) == Own(st0, p))
      && (i == |items| ==>
            && st1.arrays == st0.arrays[a := resolved]
            && ApplyMixins(st0, base, resolved).Some?
            && OwnIn(st1.own, Proto(c)) == ApplyMixins(st0, base, resolved).value["__class__" := nm.value]
            && OwnIn(st1.own, Cls(c)) == Own(st0, p)["__class__" := nm.value])
  }

  /** `createClass(name, parent, mixins, constructor)`: builds a class whose
      prototype delegates to the parent's prototype, copies the parent's own
      statics, applies the mixins in order, writes the naming entries, places
      the constructor object's entries (with their companions) on the
      prototype and installs `extend`, `create` and `toString`. */
  method CreateClass(h: Heap, ns: Namespace, name: Value, parent: Value, mixins: nat, ctor: Value)
    returns (r: Result<Value>)
    requires ns.Valid() && mixins < |h.arrays|
    modifies h
    ensures Created(old(h.View()), h.View(), ns.current, name, parent, mixins, ctor, r)
    ensures var st0 := old(h.View());
            NormalizeName(st0, name).Err? || Nullish(ResolveParent(st0, ns.current, parent)) ==>
              r.Err? && unchanged(h)
    ensures var st0 := old(h.View());
            WellFormed(st0) && Known(st0, ns.current) && Known(st0, name) && Known(st0, parent) && Known(st0, ctor) ==>
              WellFormed(h.View()) && (r.Ok? ==> Known(h.View(), r.value))
  {
    var st0 := h.View();
    var nm := NormalizeName(st0, name);
    if nm.Err? {
      return Err(nm.error);
    }
    var p := ResolveParent(st0, ns.current, parent);
    if Nullish(p) {
      return Err(TypeError("Cannot read properties of " + TypeOf(p) + " (reading 'prototype')"));
    }
    r := Assemble(h, ns.current, name, parent, mixins, ctor);
    if WellFormed(st0) && Known(st0, ns.current) && Known(st0, name) && Known(st0, parent) && Known(st0, ctor) {
      CreatedKeepsWellFormed(st0, h.View(), ns.current, name, parent, mixins, ctor, r);
    }
  }

  /** The part of a build after the name and the parent have been checked. */
  method Assemble(h: Heap, nsv: Value, name: Value, parent: Value, mixins: nat, ctor: Value)
    returns (r: Result<Value>)
    requires mixins < |h.arrays|
    requires NormalizeName(h.View(), name).Ok? && !Nullish(ResolveParent(h.View(), nsv, parent))
    modifies h
    ensures Created(old(h.View()), h.View(), nsv, name, parent, mixins, ctor, r)
  {
    var st0 := h.View();
    var nm := NormalizeName(st0, name);
    var p := ResolveParent(st0, nsv, parent);
    var super := Get(st0, p, "prototype");
    var c := AllocClass(h, super, Own(st0, p), ctor, V016);
    ghost var resolved := ResolveAll(st0, nsv, st0.arrays[mixins]);
    ghost var mixed := ApplyMixins(st0, map["constructor" := Cls(c)], resolved);
    assert OwnIn(h.own, Proto(c)) == map["constructor" := Cls(c)];
    var ok := MixinLoop(h, st0, nsv, c, mixins);
    assert OwnIn(h.own, Cls(c)) == Own(st0, p);
    assert forall v | v != Proto(c) && v != Cls(c) :: OwnIn(h.own, v) == OwnIn(st0.own, v);
    if !ok {
      r := Err(TypeError("mixins[i].mixinTo is not a function"));
      AbandonedAtMixin(st0, h.View(), nsv, name, parent, mixins, ctor);
      CreatedFails(st0, h.View(), nsv, name, parent, mixins, ctor, r);
      return;
    }
    r := Complete(h, st0, nsv, name, parent, mixins, ctor, mixed.value);
  }

  /** The rest of a build once the mixins are applied: the parent's name, the
      naming entries, the constructor object's entries and the builtins. */
  method Complete(h: Heap, st0: Store, nsv: Value, name: Value, parent: Value, mixins: nat, ctor: Value,
                  ghost mixed: map<string, Value>)
    returns (r: Result<Value>)
    requires mixins < |st0.arrays|
    requires var c := |st0.classes|;
             var p := ResolveParent(st0, nsv, parent);
             && NormalizeName(st0, name).Ok? && !Nullish(p)
             && ApplyMixins(st0, map["constructor" := Cls(c)], ResolveAll(st0, nsv, st0.arrays[mixins])) == Some(mixed)
             && h.instances == st0.instances && h.mixins == st0.mixins
             && h.classes == st0.classes + [ClassRec(Get(st0, p, "prototype"), ctor, V016)]
             && h.arrays == st0.arrays[mixins := ResolveAll(st0, nsv, st0.arrays[mixins])]
             && OwnIn(h.own, Proto(c)) == mixed
             && OwnIn(h.own, Cls(c)) == Own(st0, p)
             && forall v | v != Proto(c) && v != Cls(c) :: OwnIn(h.own, v) == OwnIn(st0.own, v)
    modifies h
    ensures Created(st0, h.View(), nsv, name, parent, mixins, ctor, r)
  {
    var c := |st0.classes|;
    var nm := NormalizeName(st0, name);
    var p := ResolveParent(st0, nsv, parent);
    var parentName := ParentName(st0, p);
    if parentName.Err? {
      // `__class__` is written on the class and its prototype before the
      // parent's name is read; on success the naming entries below include it
      h.own := h.own[Cls(c) := OwnIn(h.own, Cls(c))["__class__" := nm.value]]
                    [Proto(c) := OwnIn(h.own, Proto(c))["__class__" := nm.value]];
      r := Err(parentName.error);
      AbandonedAtParentName(st0, h.View(), nsv, name, parent, mixins, ctor, mixed);
      CreatedFails(st0, h.View(), nsv, name, parent, mixins, ctor, r);
      return;
    }
    var meta := Meta(nm.value, parentName.value, Some(Arr(mixins)), Get(st0, p, "prototype"));
    var entries := CtorEntries(st0, ctor);
    FinishClass(h, st0.own, c, meta, entries);
    r := Ok(Cls(c));
    CreatedSucceeds(st0, h.View(), nsv, name, parent, mixins, ctor, mixed, meta, entries);
  }

  lemma CreatedFails(st0: Store, st1: Store, nsv: Value, name: Value, parent: Value, a: nat, ctor: Value,
                     r: Result<Value>)
    requires a < |st0.arrays| && r.Err?
    requires st1.instances == st0.instances && st1.mixins == st0.mixins && |st1.arrays| == |st0.arrays|
    requires !(NormalizeName(st0, name).Ok? && !Nullish(ResolveParent(st0, nsv, parent))
               && ApplyMixins(st0, map["constructor" := Cls(|st0.classes|)], ResolveAll(st0, nsv, st0.arrays[a])).Some?
               && ParentName(st0, ResolveParent(st0, nsv, parent)).Ok?)
    requires Abandoned(st0, st1, nsv, name, parent, a, ctor)
    ensures Created(st0, st1, nsv, name, parent, a, ctor, r)
  {
  }

  /** A build abandoned at the first list element without `mixinTo`. */
  lemma AbandonedAtMixin(st0: Store, st1: Store, nsv: Value, name: Value, parent: Value, a: nat, ctor: Value)
    requires a < |st0.arrays|
    requires var c := |st0.classes|;
             var p := ResolveParent(st0, nsv, parent);
             var items := st0.arrays[a];
             var resolved := ResolveAll(st0, nsv, items);
             var i := FirstNonMixin(st0, resolved);
             && NormalizeName(st0, name).Ok? && !Nullish(p) && i < |items|
             && st1.classes == st0.classes + [ClassRec(Get(st0, p, "prototype"), ctor, V016)]
             && st1.arrays == st0.arrays[a := resolved[..i + 1] + items[i + 1..]]
             && ApplyMixins(st0, map["constructor" := Cls(c)], resolved[..i]) == Some(OwnIn(st1.own, Proto(c)))
             && OwnIn(st1.own, Cls(c)) == Own(st0, p)
             && forall v | v != Proto(c) && v != Cls(c) :: OwnIn(st1.own, v) == OwnIn(st0.own, v)
    ensures Abandoned(st0, st1, nsv, name, parent, a, ctor)
  {
  }

  /** A build abandoned when the parent has no name, after `__class__` is written. */
  lemma AbandonedAtParentName(st0: Store, st1: Store, nsv: Value, name: Value, parent: Value, a: nat, ctor: Value,
                              mixed: map<string, Value>)
    requires a < |st0.arrays|
    requires var c := |st0.classes|;
             var nm := NormalizeName(st0, name);
             var p := ResolveParent(st0, nsv, parent);
             var resolved := ResolveAll(st0, nsv, st0.arrays[a]);
             && nm.Ok? && !Nullish(p)
             && ApplyMixins(st0, map["constructor" := Cls(c)], resolved) == Some(mixed)
             && st1.classes == st0.classes + [ClassRec(Get(st0, p, "prototype"), ctor, V016)]
             && st1.arrays == st0.arrays[a := resolved]
             && OwnIn(st1.own, Proto(c)) == mixed["__class__" := nm.value]
             && OwnIn(st1.own, Cls(c)) == Own(st0, p)["__class__" := nm.value]
             && forall v | v != Proto(c) && v != Cls(c) :: OwnIn(st1.own, v) == OwnIn(st0.own, v)
    ensures Abandoned(st0, st1, nsv, name, parent, a, ctor)
  {
    var resolved := ResolveAll(st0, nsv, st0.arrays[a]);
    assert FirstNonMixin(st0, resolved) == |resolved|;
  }

  lemma CreatedSucceeds(st0: Store, st1: Store, nsv: Value, name: Value, parent: Value, a: nat, ctor: Value,
                        mixed: map<string, Value>, meta: map<string, Value>, entries: map<string, Value>)
    requires a < |st0.arrays|
    requires var c := |st0.classes|;
             var nm := NormalizeName(st0, name);
             var p := ResolveParent(st0, nsv, parent);
             var super := Get(st0, p, "prototype");
             && nm.Ok? && !Nullish(p) && ParentName(st0, p).Ok?
             && ApplyMixins(st0, map["constructor" := Cls(c)], ResolveAll(st0, nsv, st0.arrays[a])) == Some(mixed)
             && meta == Meta(nm.value, ParentName(st0, p).value, Some(Arr(a)), super)
             && entries == CtorEntries(st0, ctor)
             && st1.instances == st0.instances && st1.mixins == st0.mixins
             && st1.classes == st0.classes + [ClassRec(super, ctor, V016)]
             && st1.arrays == st0.arrays[a := ResolveAll(st0, nsv, st0.arrays[a])]
             && OwnIn(st1.own, Proto(c)) == mixed + meta["__scope__" := Cls(c)] + entries
             && (Cls(c) !in entries.Values ==>
                   && OwnIn(st1.own, Cls(c)) == Own(st0, p) + meta + Builtins(c)
                   && CompanionsFrom(st0.own, st1.own, c, entries, true))
    ensures Created(st0, st1, nsv, name, parent, a, ctor, Ok(Cls(|st0.classes|)))
  {
  }

  /** Precedence on a new prototype, whose table `Created` gives as the
      applied mixins, then the naming entries with `__scope__`, then the
      constructor object's entries: those entries win over the naming entries,
      which win over the last mixin providing the key, which wins over
      `constructor`; any other key is absent, so it is looked up on the
      parent's prototype. */
  lemma PrototypePrecedence(st0: Store, c: ClassId, resolved: seq<Value>, meta: map<string, Value>,
                            entries: map<string, Value>, k: string)
    requires ApplyMixins(st0, map["constructor" := Cls(c)], resolved).Some?
    ensures var t := ApplyMixins(st0, map["constructor" := Cls(c)], resolved).value + meta["__scope__" := Cls(c)] + entries;
            var j := LastProvider(st0, resolved, k);
            && (k in entries ==> t[k] == entries[k])
            && (k !in entries && k == "__scope__" ==> t[k] == Cls(c))
            && (k !in entries && k != "__scope__" && k in meta ==> t[k] == meta[k])
            && (k !in entries && k != "__scope__" && k !in meta && j >= 0 ==>
                  k in t && t[k] == MixinEntries(st0, resolved[j]).value[k])
            && (k !in entries && k != "__scope__" && k !in meta && j < 0 ==>
                  (k in t <==> k == "constructor") && (k == "constructor" ==> t[k] == Cls(c)))
  {
    MixinPrecedence(st0, map["constructor" := Cls(c)], resolved, k);
  }

  /** The statics of a new class: the parent's own statics, except where the
      naming entries or the builtins overwrite them; `extend`, `create` and
      `toString` always belong to the new class, and `toString` gives the
      class tag. */
  lemma ClassStatics(st0: Store, st1: Store, nsv: Value, name: Value, parent: Value, a: nat, ctor: Value,
                     r: Result<Value>, k: string)
    requires a < |st0.arrays| && Created(st0, st1, nsv, name, parent, a, ctor, r) && r.Ok?
    requires WellFormed(st0) && Known(st0, ctor)
    ensures CallToString(st1, Cls(|st0.classes|)) == Some(ClassTag)
    ensures k in Builtins(|st0.classes|) ==> Get(st1, Cls(|st0.classes|), k) == Builtins(|st0.classes|)[k]
    ensures var p := ResolveParent(st0, nsv, parent);
            k in Own(st0, p) && k !in Builtins(|st0.classes|) && k != "prototype"
            && k != "__class__" && k != "__parent__" && k != "__mixins__" && k != "parent" ==>
              Get(st1, Cls(|st0.classes|), k) == Own(st0, p)[k]
  {
    var c := |st0.classes|;
    var p := ResolveParent(st0, nsv, parent);
    var meta := Meta(NormalizeName(st0, name).value, ParentName(st0, p).value, Some(Arr(a)), Get(st0, p, "prototype"));
    CreatedClassTable(st0, st1, nsv, name, parent, a, ctor, r);
    StaticsOf(st1, c, Own(st0, p), meta, k);
  }

  /** The table `Created` promises for the new class. */
  lemma CreatedClassTable(st0: Store, st1: Store, nsv: Value, name: Value, parent: Value, a: nat, ctor: Value,
                          r: Result<Value>)
    requires a < |st0.arrays| && Created(st0, st1, nsv, name, parent, a, ctor, r) && r.Ok?
    requires WellFormed(st0) && Known(st0, ctor)
    ensures var p := ResolveParent(st0, nsv, parent);
            && NormalizeName(st0, name).Ok? && ParentName(st0, p).Ok?
            && Own(st1, Cls(|st0.classes|))
               == Own(st0, p) + Meta(NormalizeName(st0, name).value, ParentName(st0, p).value, Some(Arr(a)),
                                     Get(st0, p, "prototype")) + Builtins(|st0.classes|)
  {
    FreshClassNotEntry(st0, ctor);
  }

  /** Reading a static of a class whose table is `base`, then naming entries, then the builtins. */
  lemma StaticsOf(st: Store, c: ClassId, base: map<string, Value>, meta: map<string, Value>, k: string)
    requires Own(st, Cls(c)) == base + meta + Builtins(c)
    requires meta.Keys <= {"__class__", "__parent__", "__mixins__", "parent"}
    ensures CallToString(st, Cls(c)) == Some(ClassTag)
    ensures k in Builtins(c) ==> Get(st, Cls(c), k) == Builtins(c)[k]
    ensures k in base && k !in Builtins(c) && k != "prototype"
            && k != "__class__" && k != "__parent__" && k != "__mixins__" && k != "parent" ==>
              Get(st, Cls(c), k) == base[k]
  {
    assert "toString" in Builtins(c);
  }

  // ---------------------------------------------------------------------------
  //  Builds keep the heap well-formed

  /** What a mixin copies is allocated. */
  lemma MixinEntriesKnown(st: Store, m: Value)
    requires WellFormed(st)
    ensures MixinEntries(st, m).Some? ==> TableKnown(st, MixinEntries(st, m).value)
  {
    var f := Get(st, m, "mixinTo");
    if !Nullish(m) && f.Closure? && f.kind == MixinToFn && f.owner < |st.mixins| {
      OwnInKnown(st, st.mixins[f.owner]);
    }
  }

  /** Mixing allocated tables onto an allocated table gives an allocated table. */
  lemma {:induction false} ApplyMixinsKnown(st0: Store, st1: Store, t: map<string, Value>, resolved: seq<Value>)
    requires WellFormed(st0) && Grows(st0, st1) && TableKnown(st1, t)
    requires ApplyMixins(st0, t, resolved).Some?
    ensures TableKnown(st1, ApplyMixins(st0, t, resolved).value)
    decreases |resolved|
  {
    if resolved != [] {
      var n := |resolved| - 1;
      ApplyMixinsKnown(st0, st1, t, resolved[..n]);
      MixinEntriesKnown(st0, resolved[n]);
    }
  }

  /** Writing an allocated list into one array of a well-formed heap that only grew. */
  lemma ArraysKnown(st0: Store, st1: Store, a: nat, x: seq<Value>)
    requires WellFormed(st0) && Grows(st0, st1) && a < |st0.arrays|
    requires st1.arrays == st0.arrays[a := x] && AllKnown(st1, x)
    ensures forall b | 0 <= b < |st1.arrays| :: AllKnown(st1, st1.arrays[b])
  {
    forall b | 0 <= b < |st1.arrays|
      ensures AllKnown(st1, st1.arrays[b])
    {
      if b != a {
        assert st1.arrays[b] == st0.arrays[b] && AllKnown(st0, st0.arrays[b]);
      }
    }
  }

  /** A build from allocated arguments on a well-formed heap leaves it
      well-formed, whether it succeeds or fails, and hands back an allocated
      class. */
  lemma CreatedKeepsWellFormed(st0: Store, st1: Store, nsv: Value, name: Value, parent: Value, a: nat,
                               ctor: Value, r: Result<Value>)
    requires a < |st0.arrays| && Created(st0, st1, nsv, name, parent, a, ctor, r)
    requires WellFormed(st0) && Known(st0, nsv) && Known(st0, name) && Known(st0, parent) && Known(st0, ctor)
    ensures WellFormed(st1)
    ensures r.Ok? ==> Known(st1, r.value)
  {
    var nm := NormalizeName(st0, name);
    var p := ResolveParent(st0, nsv, parent);
    if nm.Ok? && !Nullish(p) {
      if r.Ok? {
        SucceededKeepsWellFormed(st0, st1, nsv, name, parent, a, ctor, r);
      } else {
        AbandonedKeepsWellFormed(st0, st1, nsv, name, parent, a, ctor);
      }
    }
  }

  /** The values a build reads from a well-formed heap and allocated
      arguments are allocated. */
  lemma BuildInputsKnown(st0: Store, nsv: Value, name: Value, parent: Value, a: nat)
    requires WellFormed(st0) && Known(st0, nsv) && Known(st0, name) && Known(st0, parent) && a < |st0.arrays|
    ensures NormalizeName(st0, name).Ok? ==> Known(st0, NormalizeName(st0, name).value)
    ensures Known(st0, ResolveParent(st0, nsv, parent))
    ensures Known(st0, Get(st0, ResolveParent(st0, nsv, parent), "prototype"))
    ensures TableKnown(st0, Own(st0, ResolveParent(st0, nsv, parent)))
    ensures AllKnown(st0, st0.arrays[a]) && AllKnown(st0, ResolveAll(st0, nsv, st0.arrays[a]))
  {
    var items := st0.arrays[a];
    assert AllKnown(st0, items);
    forall j | 0 <= j < |items|
      ensures Known(st0, ResolveAll(st0, nsv, items)[j])
    {
      assert Known(st0, items[j]);
    }
    OwnInKnown(st0, ResolveParent(st0, nsv, parent));
  }

  lemma AbandonedKeepsWellFormed(st0: Store, st1: Store, nsv: Value, name: Value, parent: Value, a: nat, ctor: Value)
    requires a < |st0.arrays| && Abandoned(st0, st1, nsv, name, parent, a, ctor)
    requires st1.instances == st0.instances && st1.mixins == st0.mixins
    requires WellFormed(st0) && Known(st0, nsv) && Known(st0, name) && Known(st0, parent) && Known(st0, ctor)
    requires NormalizeName(st0, name).Ok? && !Nullish(ResolveParent(st0, nsv, parent))
    ensures WellFormed(st1)
  {
    var c := |st0.classes|;
    var nm := NormalizeName(st0, name).value;
    var p := ResolveParent(st0, nsv, parent);
    var items := st0.arrays[a];
    var resolved := ResolveAll(st0, nsv, items);
    var i := FirstNonMixin(st0, resolved);
    var base := map["constructor" := Cls(c)];
    var rec := ClassRec(Get(st0, p, "prototype"), ctor, V016);
    BuildInputsKnown(st0, nsv, name, parent, a);
    if i < |items| {
      AbandonedEarlyCore(st0, st1, rec, a, resolved, items, i, base, Own(st0, p));
    } else {
      AbandonedLateCore(st0, st1, rec, a, resolved, base, Own(st0, p), nm);
    }
  }

  /** A build abandoned at the `i`-th mixin, stated on the tables it leaves. */
  lemma AbandonedEarlyCore(st0: Store, st1: Store, rec: ClassRec, a: nat, resolved: seq<Value>, items: seq<Value>,
                           i: nat, base: map<string, Value>, parentOwn: map<string, Value>)
    requires WellFormed(st0) && Known(st0, rec.super) && Known(st0, rec.init)
    requires st1.classes == st0.classes + [rec]
    requires st1.instances == st0.instances && st1.mixins == st0.mixins
    requires a < |st0.arrays| && AllKnown(st0, resolved) && AllKnown(st0, items)
    requires i < |items| && i < |resolved| && st1.arrays == st0.arrays[a := resolved[..i + 1] + items[i + 1..]]
    requires base == map["constructor" := Cls(|st0.classes|)] && TableKnown(st0, parentOwn)
    requires ApplyMixins(st0, base, resolved[..i]) == Some(OwnIn(st1.own, Proto(|st0.classes|)))
    requires OwnIn(st1.own, Cls(|st0.classes|)) == parentOwn
    requires forall v | v != Proto(|st0.classes|) && v != Cls(|st0.classes|) :: OwnIn(st1.own, v) == OwnIn(st0.own, v)
    ensures WellFormed(st1)
  {
    assert Grows(st0, st1);
    ApplyMixinsKnown(st0, st1, base, resolved[..i]);
    SpliceGrows(st0, st1, resolved, items, i);
    ArraysKnown(st0, st1, a, resolved[..i + 1] + items[i + 1..]);
    AppendKeepsWellFormed(st0, st1, rec, {});
  }

  /** A build abandoned after all mixins, at the parent's name. */
  lemma AbandonedLateCore(st0: Store, st1: Store, rec: ClassRec, a: nat, resolved: seq<Value>,
                          base: map<string, Value>, parentOwn: map<string, Value>, nm: Value)
    requires WellFormed(st0) && Known(st0, rec.super) && Known(st0, rec.init) && Known(st0, nm)
    requires st1.classes == st0.classes + [rec]
    requires st1.instances == st0.instances && st1.mixins == st0.mixins
    requires a < |st0.arrays| && AllKnown(st0, resolved) && st1.arrays == st0.arrays[a := resolved]
    requires base == map["constructor" := Cls(|st0.classes|)] && TableKnown(st0, parentOwn)
    requires ApplyMixins(st0, base, resolved).Some?
    requires OwnIn(st1.own, Proto(|st0.classes|)) == ApplyMixins(st0, base, resolved).value["__class__" := nm]
    requires OwnIn(st1.own, Cls(|st0.classes|)) == parentOwn["__class__" := nm]
    requires forall v | v != Proto(|st0.classes|) && v != Cls(|st0.classes|) :: OwnIn(st1.own, v) == OwnIn(st0.own, v)
    ensures WellFormed(st1)
  {
    assert Grows(st0, st1);
    ApplyMixinsKnown(st0, st1, base, resolved);
    TableGrows(st0, st1, parentOwn, "__class__", nm);
    assert AllKnown(st1, resolved);
    ArraysKnown(st0, st1, a, resolved);
    AppendKeepsWellFormed(st0, st1, rec, {});
  }

  lemma SucceededKeepsWellFormed(st0: Store, st1: Store, nsv: Value, name: Value, parent: Value, a: nat,
                                 ctor: Value, r: Result<Value>)
    requires a < |st0.arrays| && Created(st0, st1, nsv, name, parent, a, ctor, r) && r.Ok?
    requires WellFormed(st0) && Known(st0, nsv) && Known(st0, name) && Known(st0, parent) && Known(st0, ctor)
    ensures WellFormed(st1) && Known(st1, r.value)
  {
    FreshClassNotEntry(st0, ctor);
    CreatedOk(st0, st1, nsv, name, parent, a, ctor, r);
    BuiltKeepsWellFormed(st0, st1, nsv, name, parent, a, ctor);
  }

  /** The state a successful build leaves, as `Created` states it. */
  ghost predicate Built(st0: Store, st1: Store, nsv: Value, name: Value, parent: Value, a: nat, ctor: Value)
    requires a < |st0.arrays|
  {
    var c := |st0.classes|;
    var p := ResolveParent(st0, nsv, parent);
    var resolved := ResolveAll(st0, nsv, st0.arrays[a]);
    var base := map["constructor" := Cls(c)];
    var super := Get(st0, p, "prototype");
    var entries := CtorEntries(st0, ctor);
    && NormalizeName(st0, name).Ok? && ParentName(st0, p).Ok?
    && var meta := Meta(NormalizeName(st0, name).value, ParentName(st0, p).value, Some(Arr(a)), super);
    && st1.classes == st0.classes + [ClassRec(super, ctor, V016)]
    && st1.instances == st0.instances && st1.mixins == st0.mixins
    && st1.arrays == st0.arrays[a := resolved]
    && ApplyMixins(st0, base, resolved).Some?
    && OwnIn(st1.own, Proto(c)) == ApplyMixins(st0, base, resolved).value + meta["__scope__" := Cls(c)] + entries
    && OwnIn(st1.own, Cls(c)) == Own(st0, p) + meta + Builtins(c)
    && CompanionsFrom(st0.own, st1.own, c, entries, true)
  }

  lemma CreatedOk(st0: Store, st1: Store, nsv: Value, name: Value, parent: Value, a: nat, ctor: Value, r: Result<Value>)
    requires a < |st0.arrays| && Created(st0, st1, nsv, name, parent, a, ctor, r) && r.Ok?
    requires Cls(|st0.classes|) !in CtorEntries(st0, ctor).Values
    ensures r.value == Cls(|st0.classes|) && Built(st0, st1, nsv, name, parent, a, ctor)
  {
  }

  lemma BuiltKeepsWellFormed(st0: Store, st1: Store, nsv: Value, name: Value, parent: Value, a: nat, ctor: Value)
    requires a < |st0.arrays| && Built(st0, st1, nsv, name, parent, a, ctor)
    requires WellFormed(st0) && Known(st0, nsv) && Known(st0, name) && Known(st0, parent) && Known(st0, ctor)
    ensures WellFormed(st1)
  {
    var c := |st0.classes|;
    var p := ResolveParent(st0, nsv, parent);
    var resolved := ResolveAll(st0, nsv, st0.arrays[a]);
    var super := Get(st0, p, "prototype");
    var meta := Meta(NormalizeName(st0, name).value, ParentName(st0, p).value, Some(Arr(a)), super);
    BuildInputsKnown(st0, nsv, name, parent, a);
    FreshClassNotEntry(st0, ctor);
    MetaKnown(st0, NormalizeName(st0, name).value, p, Some(Arr(a)), super);
    SucceededCore(st0, st1, ClassRec(super, ctor, V016), a, resolved, map["constructor" := Cls(c)], meta, Own(st0, p),
                  CtorEntries(st0, ctor));
  }

  /** The prototype table of a successful build holds allocated values. */
  lemma PrototypeKnown(st0: Store, st1: Store, base: map<string, Value>, resolved: seq<Value>,
                       meta: map<string, Value>, entries: map<string, Value>)
    requires WellFormed(st0) && |st0.classes| < |st1.classes| && Grows(st0, st1)
    requires base == map["constructor" := Cls(|st0.classes|)]
    requires TableKnown(st0, meta) && TableKnown(st0, entries) && ApplyMixins(st0, base, resolved).Some?
    ensures TableKnown(st1, ApplyMixins(st0, base, resolved).value + meta["__scope__" := Cls(|st0.classes|)] + entries)
  {
    ApplyMixinsKnown(st0, st1, base, resolved);
  }

  /** A successful build, stated on the tables it leaves. */
  lemma SucceededCore(st0: Store, st1: Store, rec: ClassRec, a: nat, resolved: seq<Value>, base: map<string, Value>,
                      meta: map<string, Value>, parentOwn: map<string, Value>, entries: map<string, Value>)
    requires WellFormed(st0) && Known(st0, rec.super) && Known(st0, rec.init)
    requires st1.classes == st0.classes + [rec]
    requires st1.instances == st0.instances && st1.mixins == st0.mixins
    requires a < |st0.arrays| && AllKnown(st0, resolved) && st1.arrays == st0.arrays[a := resolved]
    requires base == map["constructor" := Cls(|st0.classes|)] && TableKnown(st0, parentOwn)
    requires TableKnown(st0, meta) && TableKnown(st0, entries) && Cls(|st0.classes|) !in entries.Values
    requires ApplyMixins(st0, base, resolved).Some?
    requires OwnIn(st1.own, Proto(|st0.classes|))
             == ApplyMixins(st0, base, resolved).value + meta["__scope__" := Cls(|st0.classes|)] + entries
    requires OwnIn(st1.own, Cls(|st0.classes|)) == parentOwn + meta + Builtins(|st0.classes|)
    requires CompanionsFrom(st0.own, st1.own, |st0.classes|, entries, true)
    ensures WellFormed(st1)
  {
    var c := |st0.classes|;
    assert Grows(st0, st1);
    PrototypeKnown(st0, st1, base, resolved, meta, entries);
    CompanionsFrame(st0.own, st1.own, c, entries);
    assert AllKnown(st1, resolved);
    ArraysKnown(st0, st1, a, resolved);
    CompanionsKnown(st0, st1, c, entries, true);
    AppendKeepsWellFormed(st0, st1, rec, FnValues(entries));
  }

  // ---------------------------------------------------------------------------
  //  assignTo

  function SlotOf(st: Store, name: Value): (r: Slot)
    ensures r.Unnamed? <==> !Truthy(name)
    ensures r.Named? <==> Truthy(name) && name.Str?
    ensures r.Holder? <==> Truthy(name) && TypeOf(name) == "object" && Get(st, name, "length") == Num(2)
    ensures r.Holder? ==> r.target == Index(st, name, 0) && r.key == ToKey(Index(st, name, 1))
  {
    if !Truthy(name) then Unnamed
    else if TypeOf(name) == "object" && Get(st, name, "length") == Num(2)
    then Holder(Index(st, name, 0), ToKey(Index(st, name, 1)))
    else if name.Str? then Named(name.s)
    else BadName
  }

  /** What `assignTo(name, value)` returns and the heap it leaves. */
  function Assign(st: Store, nsv: Value, name: Value, x: Value): (Result<Value>, Store)
  {
    match SlotOf(st, name)
    case Unnamed => (Ok(x), st)
    case Holder(t, k) =>
      if Nullish(t) then (Err(TypeError("Cannot set properties of " + TypeOf(t))), st)
      else (Ok(Undefined), st.(own := PutOwn(st.own, t, k, x)))
    case Named(k) => (Ok(Undefined), st.(own := PutOwn(st.own, nsv, k, x)))
    case BadName => (Err(TypeError(InvalidAssignName)), st)
  }

  ghost predicate Assigned(st0: Store, st1: Store, nsv: Value, name: Value, x: Value, r: Result<Value>)
  {
    (r, st1) == Assign(st0, nsv, name, x)
  }

  /** `assignTo(name, value)`: hands back an anonymous value, or registers it
      under its name and returns nothing. */
  method AssignTo(h: Heap, ns: Namespace, name: Value, x: Value) returns (r: Result<Value>)
    requires ns.Valid()
    modifies h
    ensures Assigned(old(h.View()), h.View(), ns.current, name, x, r)
    ensures WellFormed(old(h.View())) && Known(old(h.View()), x) ==>
              WellFormed(h.View()) && (r.Ok? ==> Known(h.View(), r.value))
  {
    var out := Assign(h.View(), ns.current, name, x);
    r := out.0;
    if WellFormed(h.View()) && Known(h.View(), x) {
      AssignedKeepsWellFormed(h.View(), out.1, ns.current, name, x, r);
    }
    h.own := out.1.own;
  }


  /** Registering under a string name makes the value what that name resolves
      to afterwards, both as a parent and as a mixin list element. */
  lemma RegisteredNameResolves(st0: Store, st1: Store, nsv: Value, name: Value, x: Value, r: Result<Value>)
    requires Assigned(st0, st1, nsv, name, x, r)
    requires name.Str? && name.s != "" && name.s != "prototype" && name.s != "length"
    requires !Nullish(nsv) && !Primitive(nsv)
    ensures r == Ok(Undefined)
    ensures ResolveParent(st1, nsv, name) == x && ResolveMixin(st1, nsv, name) == x
  {
    GetAfterPut(st0, nsv, name.s, x);
  }

  /** Registering under one string name leaves what every other name resolves to. */
  lemma RegisteringKeepsOtherNames(st0: Store, st1: Store, nsv: Value, name: Value, x: Value, r: Result<Value>,
                                   other: string)
    requires Assigned(st0, st1, nsv, name, x, r)
    requires name.Str? && name.s != "" && other != name.s
    ensures ResolveMixin(st1, nsv, Str(other)) == ResolveMixin(st0, nsv, Str(other))
  {
    GetOtherKey(st0, nsv, name.s, x, nsv, other);
  }

  // ---------------------------------------------------------------------------
  //  Building and registering

  /** `assignTo(name, createClass(name, parent, mixins, constructor))`, the step
      every entry point ends with: `mid` is the heap between the two. */
  ghost predicate Finished(st0: Store, mid: Store, st1: Store, nsv: Value, name: Value, parent: Value, a: nat,
                           ctor: Value, built: Result<Value>, r: Result<Value>)
    requires a < |st0.arrays|
  {
    && Created(st0, mid, nsv, name, parent, a, ctor, built)
    && (built.Err? ==> r == built && st1 == mid)
    && (built.Ok? ==> Assigned(mid, st1, nsv, name, built.value, r))
  }

  method BuildAndAssign(h: Heap, ns: Namespace, name: Value, parent: Value, a: nat, ctor: Value)
    returns (r: Result<Value>, ghost mid: Store, built: Result<Value>)
    requires ns.Valid() && a < |h.arrays|
    modifies h
    ensures Finished(old(h.View()), mid, h.View(), ns.current, name, parent, a, ctor, built, r)
    ensures var st0 := old(h.View());
            WellFormed(st0) && Known(st0, ns.current) && Known(st0, name) && Known(st0, parent) && Known(st0, ctor) ==>
              WellFormed(h.View()) && (r.Ok? ==> Known(h.View(), r.value))
  {
    built := CreateClass(h, ns, name, parent, a, ctor);
    mid := h.View();
    if built.Err? {
      r := built;
      return;
    }
    r := AssignTo(h, ns, name, built.value);
  }

  /** A build adds exactly one class when the name and the parent pass their
      checks, whether or not it goes on to succeed, and none otherwise; a
      successful one hands that class to the registration. */
  lemma {:induction false} FinishedCountsOneClass(st0: Store, mid: Store, st1: Store, nsv: Value, name: Value,
                                                  parent: Value, a: nat, ctor: Value, built: Result<Value>, r: Result<Value>)
    requires a < |st0.arrays| && Finished(st0, mid, st1, nsv, name, parent, a, ctor, built, r)
    ensures |st1.classes| == |st0.classes| +
              if NormalizeName(st0, name).Ok? && !Nullish(ResolveParent(st0, nsv, parent)) then 1 else 0
    ensures r.Ok? ==> built == Ok(Cls(|st0.classes|)) && |st1.classes| == |st0.classes| + 1
    ensures r.Ok? ==> r.value == if Truthy(name) then Undefined else Cls(|st0.classes|)
  {
    CreatedCountsClasses(st0, mid, nsv, name, parent, a, ctor, built);
    if built.Ok? {
      CreatedOneClass(st0, mid, nsv, name, parent, a, ctor, built);
      AssignKeepsClasses(mid, nsv, name, built.value);
    }
  }

  /** A build that gets past the name and the parent allocates its class
      record, and keeps it even when it fails later. */
  lemma CreatedCountsClasses(st0: Store, st1: Store, nsv: Value, name: Value, parent: Value, a: nat,
                             ctor: Value, r: Result<Value>)
    requires a < |st0.arrays| && Created(st0, st1, nsv, name, parent, a, ctor, r)
    ensures |st1.classes| == |st0.classes| +
              if NormalizeName(st0, name).Ok? && !Nullish(ResolveParent(st0, nsv, parent)) then 1 else 0
  {
    if r.Ok? {
      CreatedOneClass(st0, st1, nsv, name, parent, a, ctor, r);
    }
  }

  /** A successful build appends exactly one class and hands it back. */
  lemma CreatedOneClass(st0: Store, st1: Store, nsv: Value, name: Value, parent: Value, a: nat,
                        ctor: Value, r: Result<Value>)
    requires a < |st0.arrays| && Created(st0, st1, nsv, name, parent, a, ctor, r) && r.Ok?
    ensures r == Ok(Cls(|st0.classes|)) && |st1.classes| == |st0.classes| + 1
  {
  }

  /** Registering a value writes one own table and leaves the classes alone. */
  lemma AssignKeepsClasses(st: Store, nsv: Value, name: Value, x: Value)
    ensures Assign(st, nsv, name, x).1.classes == st.classes
    ensures Assign(st, nsv, name, x).0.Ok? ==> Assign(st, nsv, name, x).0.value == if Truthy(name) then Undefined else x
  {
  }

  /** Registering an allocated value keeps a well-formed heap well-formed. */
  lemma AssignedKeepsWellFormed(st0: Store, st1: Store, nsv: Value, name: Value, x: Value, r: Result<Value>)
    requires Assigned(st0, st1, nsv, name, x, r) && WellFormed(st0) && Known(st0, x)
    ensures WellFormed(st1) && |st1.classes| == |st0.classes|
    ensures r.Ok? ==> Known(st1, r.value)
  {
    match SlotOf(st0, name)
    case Holder(t, k) =>
      if !Nullish(t) {
        PutKeepsWellFormed(st0, t, k, x);
      }
    case Named(k) =>
      PutKeepsWellFormed(st0, nsv, k, x);
    case _ =>
  }

  /** `Class(...)` on a well-formed heap with allocated arguments keeps it
      well-formed and hands back an allocated value. */
  lemma FinishedKeepsWellFormed(st0: Store, mid: Store, st1: Store, nsv: Value, name: Value, parent: Value, a: nat,
                                ctor: Value, built: Result<Value>, r: Result<Value>)
    requires a < |st0.arrays| && Finished(st0, mid, st1, nsv, name, parent, a, ctor, built, r)
    requires WellFormed(st0) && Known(st0, nsv) && Known(st0, name) && Known(st0, parent) && Known(st0, ctor)
    ensures WellFormed(st1)
    ensures r.Ok? ==> Known(st1, r.value)
  {
    CreatedKeepsWellFormed(st0, mid, nsv, name, parent, a, ctor, built);
    if built.Ok? {
      AssignedKeepsWellFormed(mid, st1, nsv, name, built.value, r);
    }
  }

  /** What a call hands back: a value, or the builder waiting for a constructor. */
  datatype Reply = Done(v: Value) | Pending(builder: TempClass)

  function Settled(r: Result<Value>): Result<Reply>
  {
    match r
    case Ok(v) => Ok(Done(v))
    case Err(e) => Err(e)
  }

  /** The elements `push.apply(list, more)` appends; only arrays are taken
      apart, and `null`/`undefined` push nothing. */
  function Pushed(st: Store, more: Value): (r: seq<Value>)
    ensures !more.Arr? ==> r == []
    ensures WellFormed(st) ==> AllKnown(st, r)
  {
    if more.Arr? && more.a < |st.arrays| then st.arrays[more.a] else []
  }

  /** The fluent builder returned by `Class(name)`: it remembers a parent and a
      mixin list until a call supplies the constructor. */
  class TempClass {
    const name: Value
    var parent: Value
    const mixins: nat   // the builder's own mixin array

    constructor (h: Heap, name: Value)
      modifies h
      ensures this.name == name && parent == Null && mixins == |old(h.arrays)|
      ensures h.View() == WithNewArray(old(h.View()))
    {
      var a := h.NewArray();
      this.name := name;
      parent := Null;
      mixins := a;
    }

    /** `uses(mixins, constructor)`: appends to the mixin list, then builds
        and registers when a constructor is given. */
    method Uses(h: Heap, ns: Namespace, more: Value, ctor: Value)
      returns (r: Result<Reply>, ghost mid: Store, built: Result<Value>, rv: Result<Value>)
      requires ns.Valid() && mixins < |h.arrays|
      modifies h
      ensures Primitive(more) ==> r.Err? && unchanged(h)
      ensures !Primitive(more) ==>
                var st0 := old(h.View());
                var pushed := st0.(arrays := st0.arrays[mixins := st0.arrays[mixins] + Pushed(st0, more)]);
                && (!Truthy(ctor) ==> r == Ok(Pending(this)) && h.View() == pushed)
                && (Truthy(ctor) ==>
                      r == Settled(rv) && Finished(pushed, mid, h.View(), ns.current, name, parent, mixins, ctor, built, rv))
    {
      mid, built, rv := h.View(), Err(TypeError("")), Err(TypeError(""));
      if Primitive(more) {
        r := Err(TypeError("CreateListFromArrayLike called on non-object"));
        return;
      }
      h.arrays := h.arrays[mixins := h.arrays[mixins] + Pushed(h.View(), more)];
      if Truthy(ctor) {
        rv, mid, built := BuildAndAssign(h, ns, name, parent, mixins, ctor);
        r := Settled(rv);
      } else {
        r := Ok(Pending(this));
      }
    }

    /** `extends(parent, constructor)`: replaces the parent, then builds and
        registers when a constructor is given. */
    method Extends(h: Heap, ns: Namespace, parent: Value, ctor: Value)
      returns (r: Result<Reply>, ghost mid: Store, built: Result<Value>, rv: Result<Value>)
      requires ns.Valid() && mixins < |h.arrays|
      modifies this, h
      ensures this.parent == parent
      ensures !Truthy(ctor) ==> r == Ok(Pending(this)) && unchanged(h)
      ensures Truthy(ctor) ==>
                r == Settled(rv) && Finished(old(h.View()), mid, h.View(), ns.current, name, parent, mixins, ctor, built, rv)
    {
      this.parent := parent;
      mid, built, rv := h.View(), Err(TypeError("")), Err(TypeError(""));
      if Truthy(ctor) {
        rv, mid, built := BuildAndAssign(h, ns, name, parent, mixins, ctor);
        r := Settled(rv);
      } else {
        r := Ok(Pending(this));
      }
    }
  }

  /** Appending to a builder's mixin array keeps the heap well-formed. */
  lemma PushKeepsWellFormed(st: Store, a: nat, more: Value)
    requires WellFormed(st) && a < |st.arrays|
    ensures WellFormed(st.(arrays := st.arrays[a := st.arrays[a] + Pushed(st, more)]))
  {
    var st1 := st.(arrays := st.arrays[a := st.arrays[a] + Pushed(st, more)]);
    forall b | 0 <= b < |st1.arrays|
      ensures AllKnown(st1, st1.arrays[b])
    {
      if b == a {
        var w := st.arrays[a] + Pushed(st, more);
        assert AllKnown(st, st.arrays[a]) && AllKnown(st, Pushed(st, more));
        forall j | 0 <= j < |w| ensures Known(st, w[j]) {
          if j < |st.arrays[a]| {
            assert w[j] == st.arrays[a][j];
          } else {
            assert w[j] == Pushed(st, more)[j - |st.arrays[a]|];
          }
        }
      } else {
        assert st1.arrays[b] == st.arrays[b];
      }
    }
  }

  // ---------------------------------------------------------------------------
  //  Entry points

  /** How `Class(...)` reads its arguments. */
  datatype Route =
    | Anonymous(spec: Value)                          // one object or function
    | Builder(name: Value)                            // a name alone
    | Build(name: Value, parent: Value, ctor: Value)  // two or more arguments

  function RouteOf(args: seq<Value>): (r: Route)
    ensures r.Anonymous? <==> |args| == 1 && Truthy(args[0]) && (TypeOf(args[0]) == "object" || IsFunc(args[0]))
    ensures r.Builder? <==> |args| <= 1 && !r.Anonymous?
    ensures r.Builder? ==> r.name == if |args| == 1 then args[0] else Undefined
    ensures |args| == 2 ==> r == Build(args[0], Null, args[1])
    ensures |args| >= 3 ==> r == Build(args[0], args[1], args[2])
  {
    if |args| <= 1 then
      var name := if |args| == 1 then args[0] else Undefined;
      if Truthy(name) && (TypeOf(name) == "object" || IsFunc(name)) then Anonymous(name) else Builder(name)
    else if |args| == 2 then Build(args[0], Null, args[1])
    else Build(args[0], args[1], args[2])
  }

  /** A call with one object or function never fails: it builds an anonymous
      subclass of `Object` with no mixins. */
  lemma AnonymousAlwaysBuilds(st: Store, nsv: Value, spec: Value, mid: Store, r: Result<Value>)
    requires Created(WithNewArray(st), mid, nsv, Null, Null, |st.arrays|, spec, r)
    ensures r == Ok(Cls(|st.classes|))
    ensures mid.classes == st.classes + [ClassRec(NativeProto("Object"), spec, V016)]
  {
    AnonymousChecksPass(st, nsv);
  }

  /** The checks of a build with no name, no parent and a fresh empty list all pass. */
  lemma AnonymousChecksPass(st: Store, nsv: Value)
    ensures var st1 := WithNewArray(st);
            var base := map["constructor" := Cls(|st.classes|)];
            && NormalizeName(st1, Null) == Ok(Null) && ResolveParent(st1, nsv, Null) == ObjectCtor
            && ApplyMixins(st1, base, ResolveAll(st1, nsv, st1.arrays[|st.arrays|])) == Some(base)
            && ParentName(st1, ObjectCtor).Ok? && Get(st1, ObjectCtor, "prototype") == NativeProto("Object")
  {
    var st1 := WithNewArray(st);
    assert ResolveAll(st1, nsv, st1.arrays[|st.arrays|]) == [];
  }

  /** `Class(...)`: dispatches on the number of arguments. Every build gets a
      fresh empty mixin array `[ ]`. */
  method ClassCall(h: Heap, ns: Namespace, args: seq<Value>)
    returns (r: Result<Reply>, ghost mid: Store, built: Result<Value>, rv: Result<Value>)
    requires ns.Valid()
    modifies h
    ensures var st0 := WithNewArray(old(h.View())); var a := |old(h.arrays)|;
            match RouteOf(args)
            case Anonymous(spec) =>
              r.Ok? && r.value == Done(Cls(|st0.classes|)) && Created(st0, h.View(), ns.current, Null, Null, a, spec, Ok(Cls(|st0.classes|)))
            case Builder(name) =>
              && r.Ok? && r.value.Pending? && fresh(r.value.builder)
              && r.value.builder.name == name && r.value.builder.parent == Null && r.value.builder.mixins == a
              && h.View() == st0
            case Build(name, parent, ctor) =>
              r == Settled(rv) && Finished(st0, mid, h.View(), ns.current, name, parent, a, ctor, built, rv)
  {
    mid, built, rv := h.View(), Err(TypeError("")), Err(TypeError(""));
    match RouteOf(args)
    case Anonymous(spec) =>
      var a := h.NewArray();
      built := CreateClass(h, ns, Null, Null, a, spec);
      AnonymousAlwaysBuilds(old(h.View()), ns.current, spec, h.View(), built);
      r := Ok(Done(built.value));
    case Builder(name) =>
      var t := new TempClass(h, name);
      r := Ok(Pending(t));
    case Build(name, parent, ctor) =>
      var a := h.NewArray();
      rv, mid, built := BuildAndAssign(h, ns, name, parent, a, ctor);
      r := Settled(rv);
  }

  /** A class's `extend(name, constructor)`: `Class(name, self, constructor)`,
      whose result is dropped. */
  method Extend(h: Heap, ns: Namespace, c: ClassId, name: Value, ctor: Value)
    returns (r: Result<Value>, ghost mid: Store, built: Result<Value>, rv: Result<Value>)
    requires ns.Valid()
    modifies h
    ensures r.Ok? ==> r.value == Undefined
    ensures r.Err? <==> rv.Err?
    ensures Finished(WithNewArray(old(h.View())), mid, h.View(), ns.current, name, Cls(c), |old(h.arrays)|, ctor, built, rv)
  {
    var a := h.NewArray();
    rv, mid, built := BuildAndAssign(h, ns, name, Cls(c), a, ctor);
    r := if rv.Ok? then Ok(Undefined) else rv;
  }

  /** `Class.mixin(name, constructor)`, or `Class.mixin(constructor)` for an
      anonymous mixin: makes an object whose `mixinTo` copies the
      constructor's own entries, and assigns it like a class. */
  method Mixin(h: Heap, ns: Namespace, args: seq<Value>) returns (r: Result<Value>, ghost mid: Store)
    requires ns.Valid()
    modifies h
    ensures var m := |old(h.mixins)|;
            var name := if |args| == 1 then Null else if |args| == 0 then Undefined else args[0];
            var ctor := if |args| == 1 then args[0] else if |args| >= 2 then args[1] else Undefined;
            && mid == old(h.View()).(mixins := old(h.mixins) + [ctor],
                                     own := old(h.own)[MixinObj(m) := map["mixinTo" := Closure(MixinToFn, m, "")]])
            && MixinEntries(mid, MixinObj(m)) == Some(Own(mid, ctor))
            && Assigned(mid, h.View(), ns.current, name, MixinObj(m), r)
  {
    var name, ctor;
    if |args| == 1 {
      name, ctor := Null, args[0];
    } else {
      name := if |args| >= 1 then args[0] else Undefined;
      ctor := if |args| >= 2 then args[1] else Undefined;
    }
    var m := |h.mixins|;
    h.mixins := h.mixins + [ctor];
    h.own := h.own[MixinObj(m) := map["mixinTo" := Closure(MixinToFn, m, "")]];
    mid := h.View();
    r := AssignTo(h, ns, name, MixinObj(m));
  }

  // ---------------------------------------------------------------------------
  //  The entry points keep the heap well-formed

  /** `uses(...)` on a builder of a well-formed heap: pushing the extra
      mixins keeps it well-formed, and the build that may follow then does
      too (`FinishedKeepsWellFormed`). */
  lemma UsesKeepsWellFormed(st0: Store, mid: Store, st1: Store, nsv: Value, name: Value, parent: Value, a: nat,
                            more: Value, ctor: Value, built: Result<Value>, rv: Result<Value>)
    requires a < |st0.arrays| && WellFormed(st0)
    requires Known(st0, nsv) && Known(st0, name) && Known(st0, parent) && Known(st0, ctor)
    requires var pushed := st0.(arrays := st0.arrays[a := st0.arrays[a] + Pushed(st0, more)]);
             Finished(pushed, mid, st1, nsv, name, parent, a, ctor, built, rv)
    ensures WellFormed(st1)
  {
    var pushed := st0.(arrays := st0.arrays[a := st0.arrays[a] + Pushed(st0, more)]);
    PushKeepsWellFormed(st0, a, more);
    FinishedKeepsWellFormed(pushed, mid, st1, nsv, name, parent, a, ctor, built, rv);
  }

  /** `Class(...)` on a well-formed heap with allocated arguments leaves it well-formed. */
  lemma ClassCallKeepsWellFormed(st0: Store, mid: Store, st1: Store, nsv: Value, args: seq<Value>,
                                 built: Result<Value>, rv: Result<Value>)
    requires WellFormed(st0) && Known(st0, nsv) && AllKnown(st0, args)
    requires var st := WithNewArray(st0); var a := |st0.arrays|;
             match RouteOf(args)
             case Anonymous(spec) => Created(st, st1, nsv, Null, Null, a, spec, Ok(Cls(|st.classes|)))
             case Builder(_) => st1 == st
             case Build(name, parent, ctor) => Finished(st, mid, st1, nsv, name, parent, a, ctor, built, rv)
    ensures WellFormed(st1)
  {
    var st := WithNewArray(st0);
    NewArrayKeepsWellFormed(st0);
    RouteKnown(st0, args);
    match RouteOf(args)
    case Anonymous(spec) =>
      CreatedKeepsWellFormed(st, st1, nsv, Null, Null, |st0.arrays|, spec, Ok(Cls(|st.classes|)));
    case Builder(_) =>
    case Build(name, parent, ctor) =>
      FinishedKeepsWellFormed(st, mid, st1, nsv, name, parent, |st0.arrays|, ctor, built, rv);
  }

  /** The values a call's route picks out of allocated arguments are
      allocated, in the heap the call's new mixin array extends. */
  lemma RouteKnown(st0: Store, args: seq<Value>)
    requires AllKnown(st0, args)
    ensures match RouteOf(args)
            case Anonymous(spec) => Known(WithNewArray(st0), spec)
            case Builder(name) => Known(WithNewArray(st0), name)
            case Build(name, parent, ctor) =>
              Known(WithNewArray(st0), name) && Known(WithNewArray(st0), parent) && Known(WithNewArray(st0), ctor)
  {
    if |args| >= 1 {
      assert Known(st0, args[0]);
    }
    if |args| >= 2 {
      assert Known(st0, args[1]);
    }
    if |args| >= 3 {
      assert Known(st0, args[2]);
    }
  }

  /** A class's `extend(...)` on a well-formed heap leaves it well-formed. */
  lemma ExtendKeepsWellFormed(st0: Store, mid: Store, st1: Store, nsv: Value, c: ClassId, name: Value, ctor: Value,
                              built: Result<Value>, rv: Result<Value>)
    requires WellFormed(st0) && c < |st0.classes| && Known(st0, nsv) && Known(st0, name) && Known(st0, ctor)
    requires Finished(WithNewArray(st0), mid, st1, nsv, name, Cls(c), |st0.arrays|, ctor, built, rv)
    ensures WellFormed(st1)
  {
    NewArrayKeepsWellFormed(st0);
    FinishedKeepsWellFormed(WithNewArray(st0), mid, st1, nsv, name, Cls(c), |st0.arrays|, ctor, built, rv);
  }

  /** `Class.mixin(...)` with an allocated constructor object keeps a
      well-formed heap well-formed. */
  lemma MixinKeepsWellFormed(st0: Store, st1: Store, nsv: Value, name: Value, ctor: Value, r: Result<Value>)
    requires WellFormed(st0) && Known(st0, ctor)
    requires var m := |st0.mixins|;
             var mid := st0.(mixins := st0.mixins + [ctor],
                             own := st0.own[MixinObj(m) := map["mixinTo" := Closure(MixinToFn, m, "")]]);
             Assigned(mid, st1, nsv, name, MixinObj(m), r)
    ensures WellFormed(st1)
  {
    var m := |st0.mixins|;
    var mid := st0.(mixins := st0.mixins + [ctor], own := st0.own[MixinObj(m) := map["mixinTo" := Closure(MixinToFn, m, "")]]);
    MadeKeepsWellFormed(st0, ctor);
    AssignedKeepsWellFormed(mid, st1, nsv, name, MixinObj(m), r);
  }

  /** Making a mixin from an allocated constructor object keeps the heap well-formed. */
  lemma MadeKeepsWellFormed(st0: Store, ctor: Value)
    requires WellFormed(st0) && Known(st0, ctor)
    ensures var m := |st0.mixins|;
            WellFormed(st0.(mixins := st0.mixins + [ctor],
                            own := st0.own[MixinObj(m) := map["mixinTo" := Closure(MixinToFn, m, "")]]))
  {
    var m := |st0.mixins|;
    var mid := st0.(mixins := st0.mixins + [ctor], own := st0.own[MixinObj(m) := map["mixinTo" := Closure(MixinToFn, m, "")]]);
    assert AllKnown(mid, mid.mixins) by {
      forall j | 0 <= j < |mid.mixins| ensures Known(mid, mid.mixins[j]) {
        if j < m {
          assert mid.mixins[j] == st0.mixins[j];
        }
      }
    }
    forall v | v in mid.own
      ensures TableKnown(mid, mid.own[v])
    {
      if v != MixinObj(m) {
        assert mid.own[v] == st0.own[v];
      }
    }
  }
}
