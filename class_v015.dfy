/**
 * class.js, version 0.1.5: the predecessor of classes.js, without mixins or a
 * swappable namespace. Names resolve against and register on the global
 * object, a missing constructor shifts the arguments, and only `0` makes an
 * anonymous class.
 */
module ClassV015 {
  import opened ObjectModel
  import opened ClassCore

  const InvalidName: string := "Invalid class name value"

  /** The value recorded as `__class__`: any name of type "object" is taken as
      `[holder, key]` and reduced to its `key`; `null` has no `key` to read. */
  function NormalizeName(st: Store, name: Value): (r: Result<Value>)
    ensures TypeOf(name) != "object" ==> r == Ok(name)
    ensures name.Null? ==> r.Err?
    ensures TypeOf(name) == "object" && !name.Null? ==>
              (r.Ok? <==> Truthy(Index(st, name, 1))) && (r.Ok? ==> r.value == Index(st, name, 1))
              && (r.Err? ==> r.error == TypeError(InvalidName))
  {
    if TypeOf(name) == "object" then
      if name.Null? then Err(TypeError("Cannot read properties of null (reading '1')"))
      else
        var key := Index(st, name, 1);
        if Truthy(key) then Ok(key) else Err(TypeError(InvalidName))
    else Ok(name)
  }

  /** With the constructor argument left out, the second argument is the
      constructor and the parent is `Object`. Returns (parent, constructor). */
  function ShiftArguments(parent: Value, ctor: Value): (r: (Value, Value))
    ensures ctor == Undefined ==> r == (ObjectCtor, parent)
    ensures ctor != Undefined ==> r == (parent, ctor)
  {
    if ctor == Undefined then (ObjectCtor, parent) else (parent, ctor)
  }

  /** A string parent names a property of the global object. */
  function ResolveParent(st: Store, parent: Value): (r: Value)
    ensures parent.Str? ==> r == Get(st, Global, parent.s)
    ensures !parent.Str? ==> r == parent
    ensures WellFormed(st) && Known(st, parent) ==> Known(st, r)
  {
    if parent.Str? then Get(st, Global, parent.s) else parent
  }

  /** What `createClass(name, parent, constructor)` leaves behind, from heap
      `st0` to heap `st1`. */
  ghost predicate Created(st0: Store, st1: Store, name: Value, parent: Value, ctor: Value, r: Result<Value>)
  {
    var c := |st0.classes|;
    var args := ShiftArguments(parent, ctor);
    var nm := NormalizeName(st0, name);
    var p := ResolveParent(st0, args.0);
    && st1.instances == st0.instances && st1.mixins == st0.mixins && st1.arrays == st0.arrays
    && (r.Ok? <==> nm.Ok? && !Nullish(p) && ParentName(st0, p).Ok?)
    && (r.Err? ==> Abandoned(st0, st1, name, parent, ctor))
    && (r.Ok? ==>
         var super := Get(st0, p, "prototype");
         var meta := Meta(nm.value, ParentName(st0, p).value, None, super);
         var entries := CtorEntries(st0, args.1);
         && r.value == Cls(c)
         && st1.classes == st0.classes + [ClassRec(super, args.1, V015)]
         && OwnIn(st1.own, Proto(c)) == map["constructor" := Cls(c)] + meta["__scope__" := Cls(c)] + entries
         && (Cls(c) !in entries.Values ==>
               && OwnIn(st1.own, Cls(c)) == Own(st0, p) + meta + Builtins(c)
               && CompanionsFrom(st0.own, st1.own, c, entries, true)))
  }

  /** What a failed build leaves behind: nothing, when the name is refused or
      the parent is missing; otherwise, when the parent has no name, the
      allocated class and its prototype with `__class__` written on both. */
  ghost predicate Abandoned(st0: Store, st1: Store, name: Value, parent: Value, ctor: Value)
  {
    var c := |st0.classes|;
    var args := ShiftArguments(parent, ctor);
    var nm := NormalizeName(st0, name);
    var p := ResolveParent(st0, args.0);
    if nm.Err? || Nullish(p) then st1 == st0
    else
      && st1.classes == st0.classes + [ClassRec(Get(st0, p, "prototype"), args.1, V015)]
      && (forall v | v != Proto(c) && v != Cls(c) :: OwnIn(st1.own, v) == OwnIn(st0.own, v))
      && OwnIn(st1.own, Proto(c)) == map["constructor" := Cls(c), "__class__" := nm.value]
      && OwnIn(st1.own, Cls(c)) == Own(st0, p)["__class__" := nm.value]
  }

  /** `createClass(name, parent, constructor)`. */
  method CreateClass(h: Heap, name: Value, parent: Value, ctor: Value) returns (r: Result<Value>)
    modifies h
    ensures Created(old(h.View()), h.View(), name, parent, ctor, r)
    ensures var st0 := old(h.View());
            NormalizeName(st0, name).Err? || Nullish(ResolveParent(st0, ShiftArguments(parent, ctor).0)) ==>
              r.Err? && unchanged(h)
    ensures var st0 := old(h.View());
            WellFormed(st0) && Known(st0, name) && Known(st0, parent) && Known(st0, ctor) ==>
              WellFormed(h.View()) && (r.Ok? ==> Known(h.View(), r.value))
  {
    var st0 := h.View();
    var nm := NormalizeName(st0, name);
    if nm.Err? {
      return Err(nm.error);
    }
    var args := ShiftArguments(parent, ctor);
    var p := ResolveParent(st0, args.0);
    if Nullish(p) {
      return Err(TypeError("Cannot read properties of " + TypeOf(p) + " (reading 'prototype')"));
    }
    var c := AllocClass(h, Get(st0, p, "prototype"), Own(st0, p), args.1, V015);
    r := Complete(h, st0, name, parent, ctor);
    if WellFormed(st0) && Known(st0, name) && Known(st0, parent) && Known(st0, ctor) {
      CreatedKeepsWellFormed(st0, h.View(), name, parent, ctor, r);
    }
  }

  /** The rest of a build once the class and its prototype exist: the
      parent's name, the naming entries, the constructor object's entries
      and the builtins. */
  method Complete(h: Heap, st0: Store, name: Value, parent: Value, ctor: Value) returns (r: Result<Value>)
    requires var c := |st0.classes|;
             var args := ShiftArguments(parent, ctor);
             var p := ResolveParent(st0, args.0);
             && NormalizeName(st0, name).Ok? && !Nullish(p)
             && h.instances == st0.instances && h.mixins == st0.mixins && h.arrays == st0.arrays
             && h.classes == st0.classes + [ClassRec(Get(st0, p, "prototype"), args.1, V015)]
             && OwnIn(h.own, Proto(c)) == map["constructor" := Cls(c)]
             && OwnIn(h.own, Cls(c)) == Own(st0, p)
             && forall v | v != Proto(c) && v != Cls(c) :: OwnIn(h.own, v) == OwnIn(st0.own, v)
    modifies h
    ensures Created(st0, h.View(), name, parent, ctor, r)
  {
    var c := |st0.classes|;
    var nm := NormalizeName(st0, name);
    var args := ShiftArguments(parent, ctor);
    var p := ResolveParent(st0, args.0);
    var parentName := ParentName(st0, p);
    if parentName.Err? {
      // `__class__` is written on the class and its prototype before the
      // parent's name is read; on success the naming entries below include it
      h.own := h.own[Cls(c) := OwnIn(h.own, Cls(c))["__class__" := nm.value]]
                    [Proto(c) := OwnIn(h.own, Proto(c))["__class__" := nm.value]];
      r := Err(parentName.error);
      AbandonedAtParentName(st0, h.View(), name, parent, ctor);
      CreatedFails(st0, h.View(), name, parent, ctor, r);
      return;
    }
    var meta := Meta(nm.value, parentName.value, None, Get(st0, p, "prototype"));
    var entries := CtorEntries(st0, args.1);
    FinishClass(h, st0.own, c, meta, entries);
    r := Ok(Cls(c));
    CreatedSucceeds(st0, h.View(), name, parent, ctor, meta, entries);
  }

  lemma CreatedFails(st0: Store, st1: Store, name: Value, parent: Value, ctor: Value, r: Result<Value>)
    requires r.Err?
    requires st1.instances == st0.instances && st1.mixins == st0.mixins && st1.arrays == st0.arrays
    requires var p := ResolveParent(st0, ShiftArguments(parent, ctor).0);
             !(NormalizeName(st0, name).Ok? && !Nullish(p) && ParentName(st0, p).Ok?)
    requires Abandoned(st0, st1, name, parent, ctor)
    ensures Created(st0, st1, name, parent, ctor, r)
  {
  }

  /** A build abandoned when the parent has no name, after `__class__` is written. */
  lemma AbandonedAtParentName(st0: Store, st1: Store, name: Value, parent: Value, ctor: Value)
    requires var c := |st0.classes|;
             var args := ShiftArguments(parent, ctor);
             var nm := NormalizeName(st0, name);
             var p := ResolveParent(st0, args.0);
             && nm.Ok? && !Nullish(p)
             && st1.classes == st0.classes + [ClassRec(Get(st0, p, "prototype"), args.1, V015)]
             && OwnIn(st1.own, Proto(c)) == map["constructor" := Cls(c)]["__class__" := nm.value]
             && OwnIn(st1.own, Cls(c)) == Own(st0, p)["__class__" := nm.value]
             && forall v | v != Proto(c) && v != Cls(c) :: OwnIn(st1.own, v) == OwnIn(st0.own, v)
    ensures Abandoned(st0, st1, name, parent, ctor)
  {
  }

  lemma CreatedSucceeds(st0: Store, st1: Store, name: Value, parent: Value, ctor: Value,
                        meta: map<string, Value>, entries: map<string, Value>)
    requires var c := |st0.classes|;
             var args := ShiftArguments(parent, ctor);
             var nm := NormalizeName(st0, name);
             var p := ResolveParent(st0, args.0);
             var super := Get(st0, p, "prototype");
             && nm.Ok? && !Nullish(p) && ParentName(st0, p).Ok?
             && meta == Meta(nm.value, ParentName(st0, p).value, None, super)
             && entries == CtorEntries(st0, args.1)
             && st1.instances == st0.instances && st1.mixins == st0.mixins && st1.arrays == st0.arrays
             && st1.classes == st0.classes + [ClassRec(super, args.1, V015)]
             && OwnIn(st1.own, Proto(c)) == map["constructor" := Cls(c)] + meta["__scope__" := Cls(c)] + entries
             && (Cls(c) !in entries.Values ==>
                   && OwnIn(st1.own, Cls(c)) == Own(st0, p) + meta + Builtins(c)
                   && CompanionsFrom(st0.own, st1.own, c, entries, true))
    ensures Created(st0, st1, name, parent, ctor, Ok(Cls(|st0.classes|)))
  {
  }

  /** Where `assignClass(name, value)` puts the value: only the number 0 is
      anonymous, and names register on the global object. */
  function SlotOf(st: Store, name: Value): (r: Slot)
    ensures r.Unnamed? <==> name == Num(0)
    ensures r.Named? <==> name.Str?
  {
    if name == Num(0) then Unnamed
    else if TypeOf(name) == "object" && !name.Null? && Get(st, name, "length") == Num(2)
    then Holder(Index(st, name, 0), ToKey(Index(st, name, 1)))
    else if name.Str? then Named(name.s)
    else BadName
  }

  /** What `assignClass(name, value)` returns and the heap it leaves. A
      `null` name fails in the host when its `length` is read, before the
      library's own error is reached. */
  function Assign(st: Store, name: Value, x: Value): (r: (Result<Value>, Store))
    ensures name.Null? ==> r.0 == Err(TypeError(NullLength)) && r.1 == st
    ensures SlotOf(st, name).BadName? && !name.Null? ==> r.0 == Err(TypeError(InvalidName)) && r.1 == st
  {
    if name.Null? then (Err(TypeError(NullLength)), st)
    else
      match SlotOf(st, name)
      case Unnamed => (Ok(x), st)
      case Holder(t, k) =>
        if Nullish(t) then (Err(TypeError("Cannot set properties of " + TypeOf(t))), st)
        else (Ok(Undefined), st.(own := PutOwn(st.own, t, k, x)))
      case Named(k) => (Ok(Undefined), st.(own := PutOwn(st.own, Global, k, x)))
      case BadName => (Err(TypeError(InvalidName)), st)
  }

  /** The host's error for reading `null.length`. */
  const NullLength: string := "Cannot read properties of null (reading 'length')"

  ghost predicate Assigned(st0: Store, st1: Store, name: Value, x: Value, r: Result<Value>)
  {
    (r, st1) == Assign(st0, name, x)
  }

  method AssignClass(h: Heap, name: Value, x: Value) returns (r: Result<Value>)
    modifies h
    ensures Assigned(old(h.View()), h.View(), name, x, r)
    ensures WellFormed(old(h.View())) && Known(old(h.View()), x) ==>
              WellFormed(h.View()) && (r.Ok? ==> Known(h.View(), r.value))
  {
    var out := Assign(h.View(), name, x);
    r := out.0;
    if WellFormed(h.View()) && Known(h.View(), x) {
      AssignedKeepsWellFormed(h.View(), out.1, name, x, r);
    }
    h.own := out.1.own;
  }


  /** `assignClass(name, createClass(name, parent, constructor))`; `mid` is the
      heap between the two. */
  ghost predicate Finished(st0: Store, mid: Store, st1: Store, name: Value, parent: Value, ctor: Value,
                           built: Result<Value>, r: Result<Value>)
  {
    && Created(st0, mid, name, parent, ctor, built)
    && (built.Err? ==> r == built && st1 == mid)
    && (built.Ok? ==> Assigned(mid, st1, name, built.value, r))
  }

  method BuildAndAssign(h: Heap, name: Value, parent: Value, ctor: Value)
    returns (r: Result<Value>, ghost mid: Store, built: Result<Value>)
    modifies h
    ensures Finished(old(h.View()), mid, h.View(), name, parent, ctor, built, r)
    ensures var st0 := old(h.View());
            WellFormed(st0) && Known(st0, name) && Known(st0, parent) && Known(st0, ctor) ==>
              WellFormed(h.View()) && (r.Ok? ==> Known(h.View(), r.value))
  {
    built := CreateClass(h, name, parent, ctor);
    mid := h.View();
    if built.Err? {
      r := built;
      return;
    }
    r := AssignClass(h, name, built.value);
  }

  /** Registering under a string name makes the value what that name resolves
      to afterwards as a parent. */
  lemma RegisteredNameResolves(st0: Store, st1: Store, name: Value, x: Value, r: Result<Value>)
    requires Assigned(st0, st1, name, x, r)
    requires name.Str? && name.s != "prototype" && name.s != "length"
    ensures r == Ok(Undefined)
    ensures ResolveParent(st1, name) == x
  {
    GetAfterPut(st0, Global, name.s, x);
  }

  /** A call hands back a value, or the builder `Class(name)` returns. */
  datatype Reply = Done(v: Value) | Pending(name: Value)

  function Settled(r: Result<Value>): Result<Reply>
  {
    match r
    case Ok(v) => Ok(Done(v))
    case Err(e) => Err(e)
  }

  /** `Class(name).extends(parent, constructor)`: always builds and registers. */
  method Extends(h: Heap, name: Value, parent: Value, ctor: Value)
    returns (r: Result<Value>, ghost mid: Store, built: Result<Value>)
    modifies h
    ensures Finished(old(h.View()), mid, h.View(), name, parent, ctor, built, r)
  {
    r, mid, built := BuildAndAssign(h, name, parent, ctor);
  }

  /** The arguments `Class(name, parent, constructor)` reads, missing ones undefined. */
  function Arg(args: seq<Value>, i: nat): Value
  {
    if i < |args| then args[i] else Undefined
  }

  /** `Class(...)`: exactly one argument gives a builder; any other number of
      arguments builds and registers at once. */
  method ClassCall(h: Heap, args: seq<Value>)
    returns (r: Result<Reply>, ghost mid: Store, built: Result<Value>, rv: Result<Value>)
    modifies h
    ensures |args| == 1 ==> r == Ok(Pending(args[0])) && unchanged(h)
    ensures |args| != 1 ==>
              r == Settled(rv) && Finished(old(h.View()), mid, h.View(), Arg(args, 0), Arg(args, 1), Arg(args, 2), built, rv)
  {
    mid, built, rv := h.View(), Err(TypeError("")), Err(TypeError(""));
    if |args| == 1 {
      r := Ok(Pending(args[0]));
    } else {
      rv, mid, built := BuildAndAssign(h, Arg(args, 0), Arg(args, 1), Arg(args, 2));
      r := Settled(rv);
    }
  }

  /** A class's `extend(name, constructor)`: `Class(name, self, constructor)`,
      whose result is dropped. */
  method Extend(h: Heap, c: ClassId, name: Value, ctor: Value)
    returns (r: Result<Value>, ghost mid: Store, built: Result<Value>, rv: Result<Value>)
    modifies h
    ensures r.Ok? ==> r.value == Undefined
    ensures r.Err? <==> rv.Err?
    ensures Finished(old(h.View()), mid, h.View(), name, Cls(c), ctor, built, rv)
  {
    rv, mid, built := BuildAndAssign(h, name, Cls(c), ctor);
    r := if rv.Ok? then Ok(Undefined) else rv;
  }

  /** Calling `Class()` with no arguments still builds a class (named
      `undefined`, a subclass of `Object`) before refusing to register it. */
  lemma NoArgumentsBuildsThenFails(st0: Store, mid: Store, st1: Store, built: Result<Value>, r: Result<Value>)
    requires Finished(st0, mid, st1, Undefined, Undefined, Undefined, built, r)
    ensures built == Ok(Cls(|st0.classes|))
    ensures |mid.classes| == |st0.classes| + 1 && mid.classes[|st0.classes|].super == NativeProto("Object")
    ensures r == Err(TypeError(InvalidName)) && st1 == mid
  {
    NoArgumentsBuilds(st0, mid, built);
    assert SlotOf(mid, Undefined) == BadName;
  }

  /** With no arguments the build itself succeeds, with `Object` as parent. */
  lemma NoArgumentsBuilds(st0: Store, mid: Store, built: Result<Value>)
    requires Created(st0, mid, Undefined, Undefined, Undefined, built)
    ensures built == Ok(Cls(|st0.classes|))
    ensures |mid.classes| == |st0.classes| + 1 && mid.classes[|st0.classes|].super == NativeProto("Object")
  {
    NoArgumentsChecksPass(st0);
  }

  /** The checks of a build with no arguments all pass. */
  lemma NoArgumentsChecksPass(st0: Store)
    ensures ShiftArguments(Undefined, Undefined) == (ObjectCtor, Undefined)
    ensures ResolveParent(st0, ObjectCtor) == ObjectCtor && NormalizeName(st0, Undefined) == Ok(Undefined)
    ensures ParentName(st0, ObjectCtor).Ok? && Get(st0, ObjectCtor, "prototype") == NativeProto("Object")
  {
  }

  // ---------------------------------------------------------------------------
  //  Builds keep the heap well-formed

  /** The values a build reads from a well-formed heap and allocated
      arguments are allocated. */
  lemma BuildInputsKnown(st0: Store, name: Value, parent: Value, ctor: Value)
    requires WellFormed(st0) && Known(st0, name) && Known(st0, parent) && Known(st0, ctor)
    ensures var args := ShiftArguments(parent, ctor);
            var p := ResolveParent(st0, args.0);
            && Known(st0, args.1) && Known(st0, p) && Known(st0, Get(st0, p, "prototype"))
            && TableKnown(st0, Own(st0, p))
            && (NormalizeName(st0, name).Ok? ==> Known(st0, NormalizeName(st0, name).value))
  {
    OwnInKnown(st0, ResolveParent(st0, ShiftArguments(parent, ctor).0));
  }

  /** A build from allocated arguments on a well-formed heap leaves it
      well-formed, whether it succeeds or fails, and hands back an allocated
      class. */
  lemma CreatedKeepsWellFormed(st0: Store, st1: Store, name: Value, parent: Value, ctor: Value, r: Result<Value>)
    requires Created(st0, st1, name, parent, ctor, r)
    requires WellFormed(st0) && Known(st0, name) && Known(st0, parent) && Known(st0, ctor)
    ensures WellFormed(st1)
    ensures r.Ok? ==> Known(st1, r.value)
  {
    var args := ShiftArguments(parent, ctor);
    if NormalizeName(st0, name).Ok? && !Nullish(ResolveParent(st0, args.0)) {
      BuildInputsKnown(st0, name, parent, ctor);
      if r.Ok? {
        FreshClassNotEntry(st0, args.1);
        CreatedOk(st0, st1, name, parent, ctor, r);
        BuiltKeepsWellFormed(st0, st1, name, parent, ctor);
      } else {
        AbandonedKeepsWellFormed(st0, st1, name, parent, ctor);
      }
    }
  }

  lemma AbandonedKeepsWellFormed(st0: Store, st1: Store, name: Value, parent: Value, ctor: Value)
    requires Abandoned(st0, st1, name, parent, ctor)
    requires st1.instances == st0.instances && st1.mixins == st0.mixins && st1.arrays == st0.arrays
    requires WellFormed(st0) && Known(st0, name) && Known(st0, parent) && Known(st0, ctor)
    requires NormalizeName(st0, name).Ok? && !Nullish(ResolveParent(st0, ShiftArguments(parent, ctor).0))
    ensures WellFormed(st1)
  {
    var c := |st0.classes|;
    var args := ShiftArguments(parent, ctor);
    var nm := NormalizeName(st0, name).value;
    var p := ResolveParent(st0, args.0);
    BuildInputsKnown(st0, name, parent, ctor);
    assert Grows(st0, st1) && Known(st1, Cls(c));
    TableGrows(st0, st1, Own(st0, p), "__class__", nm);
    assert TableKnown(st1, map["constructor" := Cls(c), "__class__" := nm]);
    forall b | 0 <= b < |st1.arrays|
      ensures AllKnown(st1, st1.arrays[b])
    {
      assert AllKnown(st0, st0.arrays[b]);
    }
    AppendKeepsWellFormed(st0, st1, ClassRec(Get(st0, p, "prototype"), args.1, V015), {});
  }

  /** The state a successful build leaves, as `Created` states it. */
  ghost predicate Built(st0: Store, st1: Store, name: Value, parent: Value, ctor: Value)
  {
    var c := |st0.classes|;
    var args := ShiftArguments(parent, ctor);
    var p := ResolveParent(st0, args.0);
    var super := Get(st0, p, "prototype");
    var entries := CtorEntries(st0, args.1);
    && NormalizeName(st0, name).Ok? && ParentName(st0, p).Ok?
    && var meta := Meta(NormalizeName(st0, name).value, ParentName(st0, p).value, None, super);
    && st1.classes == st0.classes + [ClassRec(super, args.1, V015)]
    && st1.instances == st0.instances && st1.mixins == st0.mixins && st1.arrays == st0.arrays
    && OwnIn(st1.own, Proto(c)) == map["constructor" := Cls(c)] + meta["__scope__" := Cls(c)] + entries
    && OwnIn(st1.own, Cls(c)) == Own(st0, p) + meta + Builtins(c)
    && CompanionsFrom(st0.own, st1.own, c, entries, true)
  }

  lemma CreatedOk(st0: Store, st1: Store, name: Value, parent: Value, ctor: Value, r: Result<Value>)
    requires Created(st0, st1, name, parent, ctor, r) && r.Ok?
    requires Cls(|st0.classes|) !in CtorEntries(st0, ShiftArguments(parent, ctor).1).Values
    ensures r.value == Cls(|st0.classes|) && Built(st0, st1, name, parent, ctor)
  {
  }

  lemma BuiltKeepsWellFormed(st0: Store, st1: Store, name: Value, parent: Value, ctor: Value)
    requires Built(st0, st1, name, parent, ctor)
    requires WellFormed(st0) && Known(st0, name) && Known(st0, parent) && Known(st0, ctor)
    ensures WellFormed(st1)
  {
    var args := ShiftArguments(parent, ctor);
    var p := ResolveParent(st0, args.0);
    var super := Get(st0, p, "prototype");
    BuildInputsKnown(st0, name, parent, ctor);
    MetaKnown(st0, NormalizeName(st0, name).value, p, None, super);
    BuiltCore(st0, st1, ClassRec(super, args.1, V015),
              Meta(NormalizeName(st0, name).value, ParentName(st0, p).value, None, super), Own(st0, p),
              CtorEntries(st0, args.1));
  }

  /** A successful build, stated on the tables it leaves. */
  lemma BuiltCore(st0: Store, st1: Store, rec: ClassRec, meta: map<string, Value>, parentOwn: map<string, Value>,
                  entries: map<string, Value>)
    requires WellFormed(st0) && Known(st0, rec.super) && Known(st0, rec.init)
    requires st1.classes == st0.classes + [rec]
    requires st1.instances == st0.instances && st1.mixins == st0.mixins && st1.arrays == st0.arrays
    requires TableKnown(st0, parentOwn) && TableKnown(st0, meta) && TableKnown(st0, entries)
    requires OwnIn(st1.own, Proto(|st0.classes|))
             == map["constructor" := Cls(|st0.classes|)] + meta["__scope__" := Cls(|st0.classes|)] + entries
    requires OwnIn(st1.own, Cls(|st0.classes|)) == parentOwn + meta + Builtins(|st0.classes|)
    requires CompanionsFrom(st0.own, st1.own, |st0.classes|, entries, true)
    ensures WellFormed(st1)
  {
    var c := |st0.classes|;
    assert Grows(st0, st1) && Known(st1, Cls(c));
    forall b | 0 <= b < |st1.arrays|
      ensures AllKnown(st1, st1.arrays[b])
    {
      assert AllKnown(st0, st0.arrays[b]);
    }
    TableGrows(st0, st1, meta, "__scope__", Cls(c));
    TableGrows(st0, st1, entries, "constructor", Cls(c));
    CompanionsFrame(st0.own, st1.own, c, entries);
    CompanionsKnown(st0, st1, c, entries, true);
    AppendKeepsWellFormed(st0, st1, rec, FnValues(entries));
  }

  /** Registering an allocated value keeps a well-formed heap well-formed. */
  lemma AssignedKeepsWellFormed(st0: Store, st1: Store, name: Value, x: Value, r: Result<Value>)
    requires Assigned(st0, st1, name, x, r) && WellFormed(st0) && Known(st0, x)
    ensures WellFormed(st1) && |st1.classes| == |st0.classes|
    ensures r.Ok? ==> Known(st1, r.value)
  {
    match SlotOf(st0, name)
    case Holder(t, k) =>
      if !Nullish(t) {
        PutKeepsWellFormed(st0, t, k, x);
      }
    case Named(k) =>
      PutKeepsWellFormed(st0, Global, k, x);
    case _ =>
  }

  /** `Class(...)`, `extends(...)` and a class's `extend(...)` on a
      well-formed heap with allocated arguments keep it well-formed. */
  lemma FinishedKeepsWellFormed(st0: Store, mid: Store, st1: Store, name: Value, parent: Value, ctor: Value,
                                built: Result<Value>, r: Result<Value>)
    requires Finished(st0, mid, st1, name, parent, ctor, built, r)
    requires WellFormed(st0) && Known(st0, name) && Known(st0, parent) && Known(st0, ctor)
    ensures WellFormed(st1)
    ensures r.Ok? ==> Known(st1, r.value)
  {
    CreatedKeepsWellFormed(st0, mid, name, parent, ctor, built);
    if built.Ok? {
      AssignedKeepsWellFormed(mid, st1, name, built.value, r);
    }
  }

  /** The arguments `Class(...)` reads from an allocated argument list are allocated. */
  lemma ArgKnown(st: Store, args: seq<Value>, i: nat)
    requires AllKnown(st, args)
    ensures Known(st, Arg(args, i))
  {
    if i < |args| {
      assert Known(st, args[i]);
    }
  }

  /** `Class(...)` with other than one argument, on a well-formed heap with
      allocated arguments, leaves it well-formed. */
  lemma ClassCallKeepsWellFormed(st0: Store, mid: Store, st1: Store, args: seq<Value>, built: Result<Value>,
                                 rv: Result<Value>)
    requires WellFormed(st0) && AllKnown(st0, args)
    requires Finished(st0, mid, st1, Arg(args, 0), Arg(args, 1), Arg(args, 2), built, rv)
    ensures WellFormed(st1)
  {
    ArgKnown(st0, args, 0);
    ArgKnown(st0, args, 1);
    ArgKnown(st0, args, 2);
    FinishedKeepsWellFormed(st0, mid, st1, Arg(args, 0), Arg(args, 1), Arg(args, 2), built, rv);
  }
}
