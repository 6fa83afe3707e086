/**
 * How class.js 0.1.5 and classes.js 0.1.6 differ, and where they agree.
 */
module Versions {
  import opened ObjectModel
  import opened ClassCore
  import C16 = Classes
  import C15 = ClassV015

  /** Both versions reduce object names alike; they part only on `null`,
      which 0.1.6 keeps as the class name and 0.1.5 fails to read. */
  lemma NameNormalization(st: Store, name: Value)
    ensures name != Null ==> C15.NormalizeName(st, name) == C16.NormalizeName(st, name)
    ensures name == Null ==> C16.NormalizeName(st, name) == Ok(Null) && C15.NormalizeName(st, name).Err?
  {
  }

  /** 0.1.6 hands back the class for every falsy name; 0.1.5 only for `0`, and
      registers under the empty string where 0.1.6 returns the class. */
  lemma AnonymousNames(st: Store, name: Value)
    ensures C16.SlotOf(st, name) == Unnamed <==> !Truthy(name)
    ensures C15.SlotOf(st, name) == Unnamed <==> name == Num(0)
    ensures name == Str("") ==> C16.SlotOf(st, name) == Unnamed && C15.SlotOf(st, name) == Named("")
  {
  }

  /** With the global object as namespace, a given parent and constructor and
      an empty mixin list, both versions succeed or fail together. */
  lemma SameOutcomeWithoutMixins(st0: Store, s16: Store, s15: Store, name: Value, parent: Value,
                                 a: nat, ctor: Value, r16: Result<Value>, r15: Result<Value>)
    requires a < |st0.arrays| && st0.arrays[a] == []
    requires Truthy(parent) && ctor != Undefined && name != Null
    requires C16.Created(st0, s16, Global, name, parent, a, ctor, r16)
    requires C15.Created(st0, s15, name, parent, ctor, r15)
    ensures r16.Ok? <==> r15.Ok?
  {
    NameNormalization(st0, name);
    var base := map["constructor" := Cls(|st0.classes|)];
    assert C16.ResolveAll(st0, Global, st0.arrays[a]) == [];
    assert C16.ApplyMixins(st0, base, []) == Some(base);
    assert C16.ResolveParent(st0, Global, parent) == C15.ResolveParent(st0, parent);
  }

  /** When both succeed under the conditions above, they build the same
      class: the same parent prototype and constructor, and prototypes that
      agree on every key but `__mixins__`, which only 0.1.6 writes. */
  lemma SamePrototypeWithoutMixins(st0: Store, s16: Store, s15: Store, name: Value, parent: Value,
                                   a: nat, ctor: Value, r16: Result<Value>, r15: Result<Value>)
    requires a < |st0.arrays| && st0.arrays[a] == []
    requires Truthy(parent) && ctor != Undefined && name != Null
    requires C16.Created(st0, s16, Global, name, parent, a, ctor, r16) && r16.Ok?
    requires C15.Created(st0, s15, name, parent, ctor, r15) && r15.Ok?
    ensures r16 == r15
    ensures var c := |st0.classes|;
            var t16 := OwnIn(s16.own, Proto(c));
            var t15 := OwnIn(s15.own, Proto(c));
            && s16.classes[c].super == s15.classes[c].super && s16.classes[c].init == s15.classes[c].init
            && forall k | k != "__mixins__" :: (k in t16 <==> k in t15) && (k in t16 ==> t16[k] == t15[k])
  {
    var c := |st0.classes|;
    var p := C15.ResolveParent(st0, parent);
    var nm := C15.NormalizeName(st0, name).value;
    var super := Get(st0, p, "prototype");
    var m15 := Meta(nm, ParentName(st0, p).value, None, super);
    var e := CtorEntries(st0, ctor);
    Layout16(st0, s16, name, parent, a, ctor, r16, p, nm, m15, e);
    Layout15(st0, s15, name, parent, ctor, r15, p, nm, m15, e);
    OnlyMixinsDiffer(map["constructor" := Cls(c)], m15, Arr(a), Cls(c), e);
  }

  /** The 0.1.6 side of `SamePrototypeWithoutMixins`, in terms of the 0.1.5 names. */
  lemma Layout16(st0: Store, s16: Store, name: Value, parent: Value, a: nat, ctor: Value, r16: Result<Value>,
                 p: Value, nm: Value, m15: map<string, Value>, e: map<string, Value>)
    requires a < |st0.arrays| && st0.arrays[a] == []
    requires Truthy(parent) && name != Null
    requires C16.Created(st0, s16, Global, name, parent, a, ctor, r16) && r16.Ok?
    requires p == C15.ResolveParent(st0, parent) && C15.NormalizeName(st0, name) == Ok(nm)
    requires ParentName(st0, p).Ok? && m15 == Meta(nm, ParentName(st0, p).value, None, Get(st0, p, "prototype"))
    requires e == CtorEntries(st0, ctor)
    ensures var c := |st0.classes|;
            && r16 == Ok(Cls(c))
            && s16.classes[c] == ClassRec(Get(st0, p, "prototype"), ctor, V016)
            && OwnIn(s16.own, Proto(c)) == map["constructor" := Cls(c)] + m15["__mixins__" := Arr(a)]["__scope__" := Cls(c)] + e
  {
    NameNormalization(st0, name);
    assert C16.ResolveParent(st0, Global, parent) == p;
    Table16(st0, s16, name, parent, a, ctor, r16, p, nm, e);
    MetaWithMixins(nm, ParentName(st0, p).value, Arr(a), Get(st0, p, "prototype"));
  }

  /** 0.1.6's naming entries are 0.1.5's plus `__mixins__`. */
  lemma MetaWithMixins(name: Value, parentName: Value, m: Value, super: Value)
    ensures Meta(name, parentName, Some(m), super) == Meta(name, parentName, None, super)["__mixins__" := m]
  {
  }

  /** The prototype table `Created` promises in 0.1.6, with an empty mixin list. */
  lemma Table16(st0: Store, s16: Store, name: Value, parent: Value, a: nat, ctor: Value, r16: Result<Value>,
                p: Value, nm: Value, e: map<string, Value>)
    requires a < |st0.arrays| && st0.arrays[a] == []
    requires C16.Created(st0, s16, Global, name, parent, a, ctor, r16) && r16.Ok?
    requires p == C16.ResolveParent(st0, Global, parent) && C16.NormalizeName(st0, name) == Ok(nm)
    requires e == CtorEntries(st0, ctor)
    ensures var c := |st0.classes|;
            && ParentName(st0, p).Ok?
            && OwnIn(s16.own, Proto(c)) == map["constructor" := Cls(c)]
                 + Meta(nm, ParentName(st0, p).value, Some(Arr(a)), Get(st0, p, "prototype"))["__scope__" := Cls(c)] + e
  {
    NoMixins(st0, a, |st0.classes|);
  }

  /** An empty mixin list leaves the prototype's `constructor` entry alone. */
  lemma NoMixins(st0: Store, a: nat, c: ClassId)
    requires a < |st0.arrays| && st0.arrays[a] == []
    ensures C16.ApplyMixins(st0, map["constructor" := Cls(c)], C16.ResolveAll(st0, Global, st0.arrays[a]))
            == Some(map["constructor" := Cls(c)])
  {
    assert C16.ResolveAll(st0, Global, st0.arrays[a]) == [];
  }

  /** The 0.1.5 side of `SamePrototypeWithoutMixins`. */
  lemma Layout15(st0: Store, s15: Store, name: Value, parent: Value, ctor: Value, r15: Result<Value>,
                 p: Value, nm: Value, m15: map<string, Value>, e: map<string, Value>)
    requires ctor != Undefined
    requires C15.Created(st0, s15, name, parent, ctor, r15) && r15.Ok?
    requires p == C15.ResolveParent(st0, parent) && C15.NormalizeName(st0, name) == Ok(nm)
    requires ParentName(st0, p).Ok? && m15 == Meta(nm, ParentName(st0, p).value, None, Get(st0, p, "prototype"))
    requires e == CtorEntries(st0, ctor)
    ensures var c := |st0.classes|;
            && r15 == Ok(Cls(c))
            && s15.classes[c] == ClassRec(Get(st0, p, "prototype"), ctor, V015)
            && OwnIn(s15.own, Proto(c)) == map["constructor" := Cls(c)] + m15["__scope__" := Cls(c)] + e
  {
    assert C15.ShiftArguments(parent, ctor) == (parent, ctor);
  }

  /** Two prototype tables built alike except that one also holds `__mixins__`. */
  lemma OnlyMixinsDiffer(base: map<string, Value>, meta: map<string, Value>, m: Value, scope: Value,
                         entries: map<string, Value>)
    ensures var t16 := base + meta["__mixins__" := m]["__scope__" := scope] + entries;
            var t15 := base + meta["__scope__" := scope] + entries;
            forall k | k != "__mixins__" :: (k in t16 <==> k in t15) && (k in t16 ==> t16[k] == t15[k])
  {
  }
}
