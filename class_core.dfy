/**
 * The parts of a class build that classes.js and class.js spell out the same
 * way: allocating the constructor and its prototype, the naming and scoping
 * entries, copying the constructor object onto the prototype with the
 * `parent`/`parentApply` companions, the `extend`/`create`/`toString`
 * statics, instantiation, and the ancestor call through `__scope__`.
 */
module ClassCore {
  import opened ObjectModel

  /** The value recorded as `__parent__`: the parent's `__class__` when that is
      truthy, otherwise the host's class name of `new parent()`, which only a
      constructor can produce. */
  function ParentName(st: Store, p: Value): (r: Result<Value>)
    ensures Truthy(Get(st, p, "__class__")) ==> r == Ok(Get(st, p, "__class__"))
    ensures r.Err? <==> !Truthy(Get(st, p, "__class__")) && !IsFunc(p)
    ensures r.Ok? ==> Truthy(r.value)
  {
    var named := Get(st, p, "__class__");
    if Truthy(named) then Ok(named)
    else if p.Native? then Ok(Str(if p.name == "" then "Object" else p.name))
    else if IsFunc(p) then Ok(Str("Object"))
    else Err(TypeError("parent is not a constructor"))
  }

  /** The naming entries written on both the class and its prototype:
      `__class__`, `__parent__`, `__mixins__` (0.1.6 only) and `parent`. */
  function Meta(name: Value, parentName: Value, mixins: Option<Value>, super: Value): (r: map<string, Value>)
    ensures r.Keys == {"__class__", "__parent__", "parent"} + (if mixins.Some? then {"__mixins__"} else {})
    ensures r["__class__"] == name && r["__parent__"] == parentName && r["parent"] == super
    ensures mixins.Some? ==> r["__mixins__"] == mixins.value
  {
    var named := map["__class__" := name, "__parent__" := parentName];
    (if mixins.Some? then named["__mixins__" := mixins.value] else named)["parent" := super]
  }

  /** The statics every build installs last: `extend`, `create` and `toString`. */
  function Builtins(c: ClassId): (r: map<string, Value>)
    ensures r.Keys == {"extend", "create", "toString"}
    ensures forall k | k in r :: r[k].Closure? && r[k].owner == c
    ensures r["extend"].kind == ExtendFn && r["create"].kind == CreateFn && r["toString"].kind == ToStringFn
  {
    map["extend" := Closure(ExtendFn, c, ""), "create" := Closure(CreateFn, c, ""),
        "toString" := Closure(ToStringFn, c, "")]
  }

  /** The string a class's `toString` closure returns. */
  const ClassTag: string := "[object Class]"

  /** Calling `v.toString()` where the value is a class built by the library. */
  function CallToString(st: Store, v: Value): Option<string>
  {
    var f := Get(st, v, "toString");
    if f.Closure? && f.kind == ToStringFn then Some(ClassTag) else None
  }

  /** A method's own table after the build gives it the companions for key `k` of class `c`. */
  function Companions(t: map<string, Value>, c: ClassId, k: string): map<string, Value>
  {
    t["parent" := Closure(ParentFn, c, k)]["parentApply" := Closure(ParentApplyFn, c, k)]
  }

  /** The function values among a constructor object's entries. */
  function FnValues(entries: map<string, Value>): set<Value>
  {
    set k | k in entries && IsFunc(entries[k]) :: entries[k]
  }

  /** How the entry loop leaves every object other than the prototype (and,
      when `withClass`, the class): each function entry carries the companions
      for some key holding it (which one depends on the host's enumeration
      order), and nothing else changes. */
  ghost predicate CompanionsFrom(own0: map<Value, map<string, Value>>, own1: map<Value, map<string, Value>>,
                                 c: ClassId, entries: map<string, Value>, withClass: bool)
  {
    && (forall v | v != Proto(c) && (withClass ==> v != Cls(c)) && v !in FnValues(entries) ::
          OwnIn(own1, v) == OwnIn(own0, v))
    && (forall v | v in FnValues(entries) ::
          exists k | k in entries && entries[k] == v :: OwnIn(own1, v) == Companions(OwnIn(own0, v), c, k))
  }

  /** The companions the entry loop installed survive later writes to objects
      that are not function entries, and earlier writes to such objects do not
      disturb them. */
  lemma CompanionsTransfer(own0: map<Value, map<string, Value>>, own1: map<Value, map<string, Value>>,
                           own2: map<Value, map<string, Value>>, own3: map<Value, map<string, Value>>,
                           c: ClassId, entries: map<string, Value>)
    requires Cls(c) !in FnValues(entries)
    requires forall v | v != Proto(c) && v != Cls(c) :: OwnIn(own1, v) == OwnIn(own0, v)
    requires CompanionsFrom(own1, own2, c, entries, false)
    requires forall v | v != Proto(c) && v != Cls(c) :: OwnIn(own3, v) == OwnIn(own2, v)
    ensures CompanionsFrom(own0, own3, c, entries, true)
  {
    forall v | v in FnValues(entries)
      ensures exists k | k in entries && entries[k] == v :: OwnIn(own3, v) == Companions(OwnIn(own0, v), c, k)
    {
      assert v != Cls(c) && v != Proto(c);
      var k :| k in entries && entries[k] == v && OwnIn(own2, v) == Companions(OwnIn(own1, v), c, k);
    }
  }

  /** Allocates the constructor `self` and its prototype `new ctor()`: the class
      starts with the parent's own statics, the prototype with only `constructor`. */
  method AllocClass(h: Heap, super: Value, statics: map<string, Value>, init: Value, version: Version)
    returns (c: ClassId)
    modifies h
    ensures c == |old(h.classes)|
    ensures h.classes == old(h.classes) + [ClassRec(super, init, version)]
    ensures h.own == old(h.own)[Cls(c) := statics][Proto(c) := map["constructor" := Cls(c)]]
    ensures h.arrays == old(h.arrays) && h.instances == old(h.instances) && h.mixins == old(h.mixins)
  {
    c := |h.classes|;
    h.classes := h.classes + [ClassRec(super, init, version)];
    h.own := h.own[Cls(c) := statics][Proto(c) := map["constructor" := Cls(c)]];
  }

  /** The key/value pairs a build places on the prototype from its constructor argument. */
  function CtorEntries(st: Store, ctor: Value): (r: map<string, Value>)
    ensures TypeOf(ctor) != "object" || ctor.Null? ==> r == map[]
    ensures WellFormed(st) ==> TableKnown(st, r)
  {
    if TypeOf(ctor) == "object" && !ctor.Null? then Enumerable(st, ctor) else map[]
  }

  /** Where registering a built value puts it. */
  datatype Slot =
    | Unnamed                              // anonymous: the value is returned
    | Holder(target: Value, key: string)   // `[holder, key]`: written to `holder[key]`
    | Named(key: string)                   // a string: written to the namespace
    | BadName                              // anything else is refused

  /** The end of a build: the naming entries on the class and its prototype,
      `__scope__` on the prototype, the constructor object's entries with
      their companions, and the builtin statics. `own0` is the heap before
      the build, which differs from the current one only on the new class. */
  method FinishClass(h: Heap, ghost own0: map<Value, map<string, Value>>, c: ClassId,
                     meta: map<string, Value>, entries: map<string, Value>)
    requires forall v | v != Proto(c) && v != Cls(c) :: OwnIn(h.own, v) == OwnIn(own0, v)
    modifies h
    ensures h.classes == old(h.classes) && h.arrays == old(h.arrays)
    ensures h.instances == old(h.instances) && h.mixins == old(h.mixins)
    ensures OwnIn(h.own, Proto(c)) == OwnIn(old(h.own), Proto(c)) + meta["__scope__" := Cls(c)] + entries
    ensures Cls(c) !in entries.Values ==>
              && OwnIn(h.own, Cls(c)) == OwnIn(old(h.own), Cls(c)) + meta + Builtins(c)
              && CompanionsFrom(own0, h.own, c, entries, true)
  {
    h.own := h.own[Proto(c) := OwnIn(h.own, Proto(c)) + meta["__scope__" := Cls(c)]]
                  [Cls(c) := OwnIn(h.own, Cls(c)) + meta];
    ghost var own2 := h.own;
    InstallEntries(h, c, entries);
    ghost var own3 := h.own;
    h.own := h.own[Cls(c) := OwnIn(h.own, Cls(c)) + Builtins(c)];
    if Cls(c) !in entries.Values {
      CompanionsTransfer(own0, own2, own3, h.own, c, entries);
    }
  }

  /** The `for (var i in constructor)` loop: each entry is placed on the
      prototype, and each function entry gets `parent` and `parentApply`
      companions for its key. The keys are visited in an order the host chooses. */
  method InstallEntries(h: Heap, c: ClassId, entries: map<string, Value>)
    modifies h
    ensures OwnIn(h.own, Proto(c)) == OwnIn(old(h.own), Proto(c)) + entries
    ensures CompanionsFrom(old(h.own), h.own, c, entries, false)
    ensures h.classes == old(h.classes) && h.arrays == old(h.arrays)
    ensures h.instances == old(h.instances) && h.mixins == old(h.mixins)
  {
    h.own := PlaceEntries(h.own, c, entries);
  }

  /** The entry loop on the own tables: it places every entry on the
      prototype and leaves every function entry with its companions. */
  method PlaceEntries(own0: map<Value, map<string, Value>>, c: ClassId, entries: map<string, Value>)
    returns (own: map<Value, map<string, Value>>)
    ensures OwnIn(own, Proto(c)) == OwnIn(own0, Proto(c)) + entries
    ensures CompanionsFrom(own0, own, c, entries, false)
  {
    own := own0;
    ghost var done: map<string, Value> := map[];
    var todo := entries.Keys;
    while todo != {}
      invariant todo <= entries.Keys
      invariant done.Keys == entries.Keys - todo
      invariant forall j | j in done :: done[j] == entries[j]
      invariant OwnIn(own, Proto(c)) == OwnIn(own0, Proto(c)) + done
      invariant CompanionsFrom(own0, own, c, done, false)
      decreases todo
    {
      var k :| k in todo;
      var v := entries[k];
      CompanionsStep(own0, own, c, done, k, v);
      own := EntryStep(own, c, k, v);
      done := done[k := v];
      todo := todo - {k};
    }
    assert done == entries;
  }

  /** One turn of the entry loop: `self.prototype[k] = v`, then the companions when `v` is a function. */
  function EntryStep(own: map<Value, map<string, Value>>, c: ClassId, k: string, v: Value): (r: map<Value, map<string, Value>>)
    ensures OwnIn(r, Proto(c)) == OwnIn(own, Proto(c))[k := v]
    ensures IsFunc(v) ==> OwnIn(r, v) == Companions(OwnIn(own, v), c, k)
    ensures forall u | u != Proto(c) && u != v :: OwnIn(r, u) == OwnIn(own, u)
  {
    var placed := own[Proto(c) := OwnIn(own, Proto(c))[k := v]];
    if IsFunc(v) then placed[v := Companions(OwnIn(placed, v), c, k)] else placed
  }

  /** One turn of the entry loop keeps `CompanionsFrom`. */
  lemma CompanionsStep(own0: map<Value, map<string, Value>>, before: map<Value, map<string, Value>>,
                       c: ClassId, done: map<string, Value>, k: string, v: Value)
    requires k !in done
    requires CompanionsFrom(own0, before, c, done, false)
    ensures OwnIn(EntryStep(before, c, k, v), Proto(c)) == OwnIn(before, Proto(c))[k := v]
    ensures CompanionsFrom(own0, EntryStep(before, c, k, v), c, done[k := v], false)
  {
    StepLeavesOthers(own0, before, c, done, k, v);
    StepInstalls(own0, before, c, done, k, v);
  }

  /** An object that is neither the prototype nor a function entry is left as it was. */
  lemma StepLeavesOthers(own0: map<Value, map<string, Value>>, before: map<Value, map<string, Value>>,
                         c: ClassId, done: map<string, Value>, k: string, v: Value)
    requires k !in done
    requires forall u | u != Proto(c) && u !in FnValues(done) :: OwnIn(before, u) == OwnIn(own0, u)
    ensures forall u | u != Proto(c) && u !in FnValues(done[k := v]) ::
              OwnIn(EntryStep(before, c, k, v), u) == OwnIn(own0, u)
  {
    var done' := done[k := v];
    forall u | u != Proto(c) && u !in FnValues(done')
      ensures OwnIn(EntryStep(before, c, k, v), u) == OwnIn(own0, u)
    {
      assert done'[k] == v;
      forall j | j in done && IsFunc(done[j])
        ensures done[j] != u
      {
        assert done'[j] == done[j];
        assert done'[j] in FnValues(done');
      }
      assert u !in FnValues(done);
    }
  }

  /** Each function entry carries the companions for some key it is stored under. */
  lemma StepInstalls(own0: map<Value, map<string, Value>>, before: map<Value, map<string, Value>>,
                     c: ClassId, done: map<string, Value>, k: string, v: Value)
    requires k !in done
    requires CompanionsFrom(own0, before, c, done, false)
    ensures forall u | u in FnValues(done[k := v]) ::
              exists j | j in done[k := v] && done[k := v][j] == u ::
                OwnIn(EntryStep(before, c, k, v), u) == Companions(OwnIn(own0, u), c, j)
  {
    var after := EntryStep(before, c, k, v);
    var done' := done[k := v];
    forall u | u in FnValues(done')
      ensures exists j | j in done' && done'[j] == u :: OwnIn(after, u) == Companions(OwnIn(own0, u), c, j)
    {
      if u == v {
        StepInstallsCurrent(own0, before, c, done, k, v);
        assert done'[k] == u;
      } else {
        StepKeepsEarlier(own0, before, c, done, k, v, u);
      }
    }
  }

  /** The entry just placed carries the companions for its own key. */
  lemma StepInstallsCurrent(own0: map<Value, map<string, Value>>, before: map<Value, map<string, Value>>,
                            c: ClassId, done: map<string, Value>, k: string, v: Value)
    requires IsFunc(v)
    requires CompanionsFrom(own0, before, c, done, false)
    ensures OwnIn(EntryStep(before, c, k, v), v) == Companions(OwnIn(own0, v), c, k)
  {
    if v in FnValues(done) {
      var j :| j in done && done[j] == v && OwnIn(before, v) == Companions(OwnIn(own0, v), c, j);
      assert Companions(Companions(OwnIn(own0, v), c, j), c, k) == Companions(OwnIn(own0, v), c, k);
    } else {
      assert OwnIn(before, v) == OwnIn(own0, v);
    }
  }

  /** A function entry placed earlier, and not placed again, keeps its companions. */
  lemma StepKeepsEarlier(own0: map<Value, map<string, Value>>, before: map<Value, map<string, Value>>,
                         c: ClassId, done: map<string, Value>, k: string, v: Value, u: Value)
    requires k !in done && u != v && u in FnValues(done[k := v])
    requires CompanionsFrom(own0, before, c, done, false)
    ensures exists j | j in done[k := v] && done[k := v][j] == u ::
              OwnIn(EntryStep(before, c, k, v), u) == Companions(OwnIn(own0, u), c, j)
  {
    var done' := done[k := v];
    var j :| j in done' && IsFunc(done'[j]) && done'[j] == u;
    assert j != k && j in done && u in FnValues(done);
    var j' :| j' in done && done[j'] == u && OwnIn(before, u) == Companions(OwnIn(own0, u), c, j');
    assert j' != k && done'[j'] == u;
  }

  // ---------------------------------------------------------------------------
  //  Instantiation

  /** `new self()` (also what `create` does): a fresh instance whose lookups all
      go to the class's prototype; the call trace lists the constructor function
      given to the build, then the instance's `construct` method, each only when
      it is a function. Their bodies are opaque and modelled as changing nothing. */
  method New(h: Heap, c: ClassId) returns (inst: Value, calls: seq<Value>)
    requires c < |h.classes|
    modifies h
    ensures inst == Inst(|old(h.instances)|)
    ensures h.instances == old(h.instances) + [c]
    ensures h.own == old(h.own) - {inst}
    ensures h.classes == old(h.classes) && h.arrays == old(h.arrays) && h.mixins == old(h.mixins)
    ensures forall k :: Get(h.View(), inst, k) == ProtoGet(h.View(), c, k)
    ensures calls == (if IsFunc(h.classes[c].init) then [h.classes[c].init] else [])
                     + (if IsFunc(Get(h.View(), inst, "construct")) then [Get(h.View(), inst, "construct")] else [])
    ensures WellFormed(old(h.View())) ==> WellFormed(h.View())
  {
    if WellFormed(h.View()) {
      NewKeepsWellFormed(h.View(), c);
    }
    inst := Inst(|h.instances|);
    h.instances := h.instances + [c];
    h.own := h.own - {inst};
    calls := [];
    var init := h.classes[c].init;
    if IsFunc(init) {
      calls := calls + [init];
    }
    var construct := Get(h.View(), inst, "construct");
    if IsFunc(construct) {
      calls := calls + [construct];
    }
  }

  /** A new instance of an allocated class keeps the heap well-formed. */
  lemma NewKeepsWellFormed(st: Store, c: ClassId)
    requires WellFormed(st) && c < |st.classes|
    ensures WellFormed(st.(instances := st.instances + [c], own := st.own - {Inst(|st.instances|)}))
  {
    var st1 := st.(instances := st.instances + [c], own := st.own - {Inst(|st.instances|)});
    forall i | 0 <= i < |st1.instances|
      ensures st1.instances[i] < |st1.classes|
    {
      if i < |st.instances| {
        assert st1.instances[i] == st.instances[i];
      }
    }
    forall v | v in st1.own
      ensures TableKnown(st1, st1.own[v])
    {
      assert st1.own[v] == st.own[v] && TableKnown(st, st.own[v]);
    }
  }

  // ---------------------------------------------------------------------------
  //  The ancestor call through `__scope__`

  /** The `that` an ancestor call receives as its first argument. */
  function Receiver(arguments: seq<Value>): Value
  {
    if |arguments| > 0 then arguments[0] else Undefined
  }

  /** The heap while the ancestor runs: `that.__scope__` moved to `up`. */
  function Moved(st: Store, that: Value, up: Value): Store
  {
    st.(own := PutOwn(st.own, that, "__scope__", up))
  }

  /** An ancestor call for key `m` on `that` reaches a function to call:
      `that`, its scope and the scope's `parent` are all objects, and the
      parent holds a function under `m`. */
  predicate AncestorReady(st: Store, that: Value, m: string)
  {
    && !Nullish(that)
    && !Nullish(Get(st, that, "__scope__"))
    && var scope := Get(st, that, "__scope__");
       var up := Get(st, scope, "parent");
       !Nullish(up) && IsFunc(Get(Moved(st, that, up), up, m))
  }

  /** The entry an ancestor call runs: `scope.parent[m]`, read once the scope has moved. */
  function AncestorTarget(st: Store, that: Value, m: string): Value
    requires !Nullish(that) && !Nullish(Get(st, that, "__scope__"))
  {
    var up := Get(st, Get(st, that, "__scope__"), "parent");
    if Nullish(up) then Undefined else Get(Moved(st, that, up), up, m)
  }

  /** `method.parent(that, args...)` for the entry stored under key `m`: saves
      `that.__scope__`, moves it to the scope's `parent`, runs `scope.parent[m]`
      with the remaining arguments, restores the saved scope and returns the
      ancestor's result. The ancestor's body is opaque: it is modelled by the
      value it returns and leaves the heap as it found it. Nothing restores the
      scope when the lookup of the ancestor's entry fails. */
  method ParentCall(h: Heap, m: string, arguments: seq<Value>, ancestorResult: Value)
    returns (r: Result<Value>, target: Value, scopeDuring: Value, forwarded: seq<Value>)
    modifies h
    ensures h.classes == old(h.classes) && h.arrays == old(h.arrays)
    ensures h.instances == old(h.instances) && h.mixins == old(h.mixins)
    ensures forwarded == if |arguments| > 0 then arguments[1..] else []
    ensures var that := Receiver(arguments);
            Nullish(that) || Nullish(Get(old(h.View()), that, "__scope__")) ==> r.Err? && h.own == old(h.own)
    ensures var st0 := old(h.View()); var that := Receiver(arguments);
            !Nullish(that) && !Nullish(Get(st0, that, "__scope__")) ==>
              var scope := Get(st0, that, "__scope__");
              var up := Get(st0, scope, "parent");
              && (r.Ok? <==> AncestorReady(st0, that, m))
              && (r.Err? ==> h.own == PutOwn(st0.own, that, "__scope__", up))
              && (r.Ok? ==> && r.value == ancestorResult
                            && target == AncestorTarget(st0, that, m)
                            && scopeDuring == up
                            && h.own == PutOwn(st0.own, that, "__scope__", scope)
                            && Get(h.View(), that, "__scope__") == scope)
    ensures WellFormed(old(h.View())) && Known(old(h.View()), Receiver(arguments)) ==> WellFormed(h.View())
  {
    var that := Receiver(arguments);
    forwarded := if |arguments| > 0 then arguments[1..] else [];
    target, scopeDuring := Undefined, Undefined;
    if Nullish(that) {
      r := Err(TypeError("Cannot read properties of " + TypeOf(that) + " (reading '__scope__')"));
      return;
    }
    var scope := Get(h.View(), that, "__scope__");
    if Nullish(scope) {
      r := Err(TypeError("Cannot read properties of " + TypeOf(scope) + " (reading 'parent')"));
      return;
    }
    ghost var st0 := h.View();
    assert !Primitive(that);
    var up := Get(h.View(), scope, "parent");
    h.Put(that, "__scope__", up);
    scopeDuring := Get(h.View(), that, "__scope__");
    GetAfterPut(st0, that, "__scope__", up);
    var base := Get(h.View(), scope, "parent");
    GetOtherKey(st0, that, "__scope__", up, scope, "parent");
    if Nullish(base) {
      r := Err(TypeError("Cannot read properties of " + TypeOf(base) + " (reading '" + m + "')"));
      return;
    }
    target := Get(h.View(), base, m);
    if !IsFunc(target) {
      r := Err(TypeError("scope.parent[method].apply is not a function"));
      return;
    }
    // scope.parent[method].apply(that, args) runs here
    h.Put(that, "__scope__", scope);
    PutOwnTwice(st0.own, that, "__scope__", up, scope);
    GetAfterPut(st0, that, "__scope__", scope);
    r := Ok(ancestorResult);
  }

  /** What `self.prototype[m].parent` holds when `parentApply` runs. */
  function CompanionOf(st: Store, c: ClassId, m: string): Value
  {
    var f := ProtoGet(st, c, m);
    if Nullish(f) then Undefined else Get(st, f, "parent")
  }

  /** `method.parentApply(that, args)` of key `m` in class `c`: copies `args`,
      puts `that` in front and calls the method's current `parent` companion
      with them. It returns nothing, whatever the ancestor returned. A
      companion that the library did not make is an opaque function, modelled
      as changing nothing. */
  method ParentApply(h: Heap, c: ClassId, m: string, that: Value, args: seq<Value>, ancestorResult: Value)
    returns (r: Result<Value>, forwarded: seq<Value>)
    modifies h
    ensures h.classes == old(h.classes) && h.arrays == old(h.arrays)
    ensures h.instances == old(h.instances) && h.mixins == old(h.mixins)
    ensures r.Ok? ==> r.value == Undefined
    ensures !IsFunc(CompanionOf(old(h.View()), c, m)) ==> r.Err? && h.own == old(h.own)
    ensures var p := CompanionOf(old(h.View()), c, m);
            p.Closure? && p.kind == ParentFn ==>
              && forwarded == args
              && (r.Ok? <==> AncestorReady(old(h.View()), that, p.member))
              && (r.Ok? ==> Get(h.View(), that, "__scope__") == Get(old(h.View()), that, "__scope__"))
    ensures var st0 := old(h.View()); var p := CompanionOf(st0, c, m);
            p.Closure? && p.kind == ParentFn ==>
              if Nullish(that) || Nullish(Get(st0, that, "__scope__")) then h.own == old(h.own)
              else
                var scope := Get(st0, that, "__scope__");
                var up := Get(st0, scope, "parent");
                && (r.Err? ==> h.own == PutOwn(st0.own, that, "__scope__", up))
                && (r.Ok? ==> h.own == PutOwn(st0.own, that, "__scope__", scope))
    ensures WellFormed(old(h.View())) && Known(old(h.View()), that) ==> WellFormed(h.View())
    ensures var p := CompanionOf(old(h.View()), c, m);
            IsFunc(p) && !(p.Closure? && p.kind == ParentFn) ==>
              r == Ok(Undefined) && h.own == old(h.own) && forwarded == [that] + args
  {
    forwarded := [that] + args;
    var f := Get(h.View(), Proto(c), m);
    if Nullish(f) {
      r := Err(TypeError("Cannot read properties of " + TypeOf(f) + " (reading 'parent')"));
      return;
    }
    var p := Get(h.View(), f, "parent");
    if !IsFunc(p) {
      r := Err(TypeError("self.prototype[method].parent.apply is not a function"));
      return;
    }
    if p.Closure? && p.kind == ParentFn {
      var inner, _, _, fwd := ParentCall(h, p.member, [that] + args, ancestorResult);
      assert ([that] + args)[1..] == args && Receiver([that] + args) == that;
      forwarded := fwd;
      r := if inner.Err? then inner else Ok(Undefined);
    } else {
      // an opaque function the library did not build
      r := Ok(Undefined);
    }
  }

  // ---------------------------------------------------------------------------
  //  Properties of the scope chain

  /** Class `c` still carries the `parent` links its build wrote on the
      constructor and on the prototype. */
  ghost predicate Linked(st: Store, c: ClassId)
  {
    && c < |st.classes|
    && "parent" in Own(st, Cls(c)) && Own(st, Cls(c))["parent"] == st.classes[c].super
    && "parent" in Own(st, Proto(c)) && Own(st, Proto(c))["parent"] == st.classes[c].super
  }

  /** `c` and its next `n - 1` ancestors are linked, and each has a parent class. */
  ghost predicate LinkedUpTo(st: Store, c: ClassId, n: nat)
    decreases n
  {
    n == 0 || (Linked(st, c) && ParentClass(st, c).Some? && LinkedUpTo(st, ParentClass(st, c).value, n - 1))
  }

  /** The class `n` levels above `c`. */
  function Ancestor(st: Store, c: ClassId, n: nat): Option<ClassId>
    decreases n
  {
    if n == 0 then Some(c)
    else match ParentClass(st, c)
      case Some(p) => Ancestor(st, p, n - 1)
      case None => None
  }

  /** The scope after `n` moves `scope = scope.parent`. */
  function Climb(st: Store, scope: Value, n: nat): Value
    decreases n
  {
    if n == 0 || Nullish(scope) then scope else Climb(st, Get(st, scope, "parent"), n - 1)
  }

  lemma {:induction false} ClimbLast(st: Store, scope: Value, n: nat)
    ensures Climb(st, scope, n + 1)
            == (var x := Climb(st, scope, n); if Nullish(x) then x else Get(st, x, "parent"))
    decreases n
  {
    if n > 0 && !Nullish(scope) {
      ClimbLast(st, Get(st, scope, "parent"), n - 1);
    }
  }

  lemma {:induction false} AncestorStep(st: Store, c: ClassId, n: nat)
    requires LinkedUpTo(st, c, n + 1)
    ensures Ancestor(st, c, n).Some? && Linked(st, Ancestor(st, c, n).value)
    ensures ParentClass(st, Ancestor(st, c, n).value) == Ancestor(st, c, n + 1)
    ensures Ancestor(st, c, n + 1).Some? && LinkedUpTo(st, c, n)
    decreases n
  {
    if n > 0 {
      AncestorStep(st, ParentClass(st, c).value, n - 1);
    }
  }

  /** Moving the scope up `n` times from a linked class's prototype lands on the
      prototype of its `n`-th ancestor: no level is skipped. */
  lemma {:induction false} ClimbFromPrototype(st: Store, c: ClassId, n: nat)
    requires LinkedUpTo(st, c, n)
    ensures Ancestor(st, c, n).Some? && Climb(st, Proto(c), n) == Proto(Ancestor(st, c, n).value)
    decreases n
  {
    if n > 0 {
      ClimbFromPrototype(st, ParentClass(st, c).value, n - 1);
    }
  }

  /** The same from the class itself, where a fresh instance's scope starts. */
  lemma ClimbFromClass(st: Store, c: ClassId, n: nat)
    requires n > 0 && LinkedUpTo(st, c, n)
    ensures Ancestor(st, c, n).Some? && Climb(st, Cls(c), n) == Proto(Ancestor(st, c, n).value)
  {
    ClimbFromPrototype(st, ParentClass(st, c).value, n - 1);
  }

  /** The `n+1`-th nested ancestor call, made while the scope has climbed `n`
      levels from class `c`, runs the entry of the `n+1`-th ancestor and moves
      the scope exactly one more level. */
  lemma NestedAncestorCall(st: Store, that: Value, c: ClassId, n: nat, m: string)
    requires !Nullish(that) && m != "__scope__"
    requires Get(st, that, "__scope__") == Climb(st, Cls(c), n)
    requires LinkedUpTo(st, c, n + 1)
    ensures Ancestor(st, c, n + 1).Some? && !Nullish(Get(st, that, "__scope__"))
    ensures Get(st, Get(st, that, "__scope__"), "parent") == Climb(st, Cls(c), n + 1)
    ensures AncestorTarget(st, that, m) == ProtoGet(st, Ancestor(st, c, n + 1).value, m)
  {
    AncestorStep(st, c, n);
    ClimbLast(st, Cls(c), n);
    var a := Ancestor(st, c, n).value;
    if n == 0 {
      assert Climb(st, Cls(c), n) == Cls(c);
    } else {
      ClimbFromClass(st, c, n);
    }
    var up := Get(st, Get(st, that, "__scope__"), "parent");
    assert up == Proto(ParentClass(st, a).value);
    GetOtherKey(st, that, "__scope__", up, up, m);
  }

  /** A method that an instance's class inherits (it has no entry of its own
      under `m`) and that calls its ancestor is sent back to itself: the scope
      starts at the instance's class, not at the class that defined the method,
      so the first ancestor call runs the very entry the instance dispatched to. */
  lemma InheritedMethodReenters(st: Store, i: nat, m: string)
    requires i < |st.instances| && m != "__scope__"
    requires "__scope__" !in Own(st, Inst(i)) && m !in Own(st, Inst(i))
    requires var c := st.instances[i];
             && "__scope__" in Own(st, Proto(c)) && Own(st, Proto(c))["__scope__"] == Cls(c)
             && m !in Own(st, Proto(c))
             && LinkedUpTo(st, c, 1)
    ensures !Nullish(Get(st, Inst(i), "__scope__"))
    ensures AncestorTarget(st, Inst(i), m) == Get(st, Inst(i), m)
  {
    var c := st.instances[i];
    NestedAncestorCall(st, Inst(i), c, 0, m);
  }

  /** A built prototype delegates every key it does not hold itself to its
      parent's prototype (or to the host's root prototype). */
  lemma Delegates(st: Store, c: ClassId, k: string)
    requires c < |st.classes| && k !in Own(st, Proto(c))
    requires var s := st.classes[c].super;
             (s.Proto? && s.c < c) || s.NativeProto? || s.FnProto? || s.Obj?
    ensures Get(st, Proto(c), k) == Get(st, st.classes[c].super, k)
  {
  }

  // ---------------------------------------------------------------------------
  //  Builds keep the heap well-formed

  /** The constructor object of a well-formed heap never holds the class a
      build is about to allocate, so the class's own table is never also one
      of its methods' tables. */
  lemma FreshClassNotEntry(st: Store, ctor: Value)
    requires WellFormed(st) && Known(st, ctor)
    ensures Cls(|st.classes|) !in CtorEntries(st, ctor).Values
  {
    var entries := CtorEntries(st, ctor);
    forall k | k in entries
      ensures entries[k] != Cls(|st.classes|)
    {
      assert Known(st, entries[k]);
    }
  }

  /** The naming entries of a build from allocated values are allocated. */
  lemma MetaKnown(st: Store, name: Value, p: Value, mixins: Option<Value>, super: Value)
    requires WellFormed(st) && Known(st, name) && Known(st, p) && Known(st, super) && ParentName(st, p).Ok?
    requires mixins.Some? ==> Known(st, mixins.value)
    ensures TableKnown(st, Meta(name, ParentName(st, p).value, mixins, super))
  {
    assert Known(st, ParentName(st, p).value) by {
      assert Known(st, Get(st, p, "__class__"));
    }
  }

  /** Every own table of a well-formed heap holds allocated values. */
  lemma OwnInKnown(st: Store, v: Value)
    requires WellFormed(st)
    ensures TableKnown(st, OwnIn(st.own, v))
  {
  }

  /** A build that appends one class record with allocated references,
      stores only allocated values in the new class, its prototype, the
      other own tables it changes (`extra`) and the arrays, and leaves
      everything else alone keeps the heap well-formed. */
  lemma AppendKeepsWellFormed(st0: Store, st1: Store, rec: ClassRec, extra: set<Value>)
    requires WellFormed(st0) && Known(st0, rec.super) && Known(st0, rec.init)
    requires st1.classes == st0.classes + [rec]
    requires st1.instances == st0.instances && st1.mixins == st0.mixins
    requires forall a | 0 <= a < |st1.arrays| :: AllKnown(st1, st1.arrays[a])
    requires TableKnown(st1, OwnIn(st1.own, Proto(|st0.classes|)))
    requires TableKnown(st1, OwnIn(st1.own, Cls(|st0.classes|)))
    requires forall v | v != Proto(|st0.classes|) && v != Cls(|st0.classes|) && v !in extra ::
               OwnIn(st1.own, v) == OwnIn(st0.own, v)
    requires forall v | v in extra :: TableKnown(st1, OwnIn(st1.own, v))
    ensures WellFormed(st1)
  {
    assert Grows(st0, st1);
    OwnKnownAfter(st0, st1, {Proto(|st0.classes|), Cls(|st0.classes|)} + extra);
    forall c | 0 <= c < |st1.classes|
      ensures Known(st1, st1.classes[c].super) && Known(st1, st1.classes[c].init)
      ensures st1.classes[c].super.Proto? ==> st1.classes[c].super.c < c
    {
      if c < |st0.classes| {
        assert st1.classes[c] == st0.classes[c];
      } else {
        assert st1.classes[c] == rec;
      }
    }
    assert AllKnown(st1, st1.mixins) by {
      forall j | 0 <= j < |st1.mixins| ensures Known(st1, st1.mixins[j]) {
        assert Known(st0, st0.mixins[j]);
      }
    }
  }

  /** The frame of `CompanionsFrom` when it covers the class. */
  lemma CompanionsFrame(own0: map<Value, map<string, Value>>, own1: map<Value, map<string, Value>>,
                        c: ClassId, entries: map<string, Value>)
    requires CompanionsFrom(own0, own1, c, entries, true)
    ensures forall v | v != Proto(c) && v != Cls(c) && v !in FnValues(entries) :: OwnIn(own1, v) == OwnIn(own0, v)
  {
  }

  /** The companion tables the entry loop leaves hold allocated values. */
  lemma CompanionsKnown(st0: Store, st1: Store, c: ClassId, entries: map<string, Value>, withClass: bool)
    requires WellFormed(st0) && Grows(st0, st1) && c < |st1.classes|
    requires CompanionsFrom(st0.own, st1.own, c, entries, withClass)
    ensures forall v | v in FnValues(entries) :: TableKnown(st1, OwnIn(st1.own, v))
  {
    forall v | v in FnValues(entries)
      ensures TableKnown(st1, OwnIn(st1.own, v))
    {
      var k :| k in entries && entries[k] == v && OwnIn(st1.own, v) == Companions(OwnIn(st0.own, v), c, k);
      OwnInKnown(st0, v);
    }
  }
}
