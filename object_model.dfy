/**
 * The abstract JavaScript object model that both versions of the class library
 * run on: tagged values, a heap of own-property tables, class records whose
 * prototypes delegate to their parent's prototype, and property reads and writes.
 */
module ObjectModel {

  type ClassId = nat

  /** The library version that built a class: class.js is 0.1.5, classes.js is 0.1.6. */
  datatype Version = V015 | V016

  /** The closures the library creates: `extend`, `create` and `toString` on a
      class, `parent` and `parentApply` on every method of a constructor object,
      and `mixinTo` on a mixin. */
  datatype ClosureKind = ExtendFn | CreateFn | ToStringFn | ParentFn | ParentApplyFn | MixinToFn

  /** A JavaScript value. Objects are identified by their tag and an id; method
      bodies and user functions are opaque ids. */
  datatype Value =
    | Undefined
    | Null
    | Bool(b: bool)
    | Num(n: int)
    | Str(s: string)
    | Obj(o: nat)                 // a plain object (Obj(0) is the global object)
    | Arr(a: nat)                 // an array, its elements kept in Store.arrays
    | Inst(i: nat)                // an instance created by a class's `create`
    | MixinObj(m: nat)            // an object made by `new Mixin(...)`
    | Fn(f: nat)                  // an opaque user function
    | Native(name: string)        // a host constructor such as Object
    | Cls(c: ClassId)             // the constructor `self` made by a build
    | Proto(c: ClassId)           // `self.prototype`
    | NativeProto(name: string)   // the prototype of a host constructor
    | FnProto(f: nat)             // the prototype of a user function
    | Closure(kind: ClosureKind, owner: nat, member: string)  // owner: a class, or a mixin for MixinToFn

  const Global: Value := Obj(0)
  const ObjectCtor: Value := Native("Object")

  datatype Error = TypeError(msg: string)
  datatype Result<T> = Ok(value: T) | Err(error: Error)
  datatype Option<T> = None | Some(value: T)

  predicate Nullish(v: Value) { v.Undefined? || v.Null? }

  /** Primitives silently ignore property writes in non-strict code. */
  predicate Primitive(v: Value) { v.Bool? || v.Num? || v.Str? }

  predicate Truthy(v: Value)
  {
    match v
    case Undefined => false
    case Null => false
    case Bool(b) => b
    case Num(n) => n != 0
    case Str(s) => s != ""
    case _ => true
  }

  function TypeOf(v: Value): string
  {
    match v
    case Undefined => "undefined"
    case Null => "object"
    case Bool(_) => "boolean"
    case Num(_) => "number"
    case Str(_) => "string"
    case Fn(_) => "function"
    case Native(_) => "function"
    case Cls(_) => "function"
    case Closure(_, _, _) => "function"
    case _ => "object"
  }

  /** `isFunc`: the host's class tag of the value is "Function". */
  predicate IsFunc(v: Value) { v.Fn? || v.Native? || v.Cls? || v.Closure? }

  /** What a build records about a class besides its own-property tables:
      the object its prototype delegates to (`parent.prototype`), the
      constructor argument run at instantiation, and the version that built it. */
  datatype ClassRec = ClassRec(super: Value, init: Value, version: Version)

  /** A snapshot of the heap. */
  datatype Store = Store(
    own: map<Value, map<string, Value>>,
    arrays: seq<seq<Value>>,
    classes: seq<ClassRec>,
    instances: seq<ClassId>,
    mixins: seq<Value>)

  function OwnIn(own: map<Value, map<string, Value>>, v: Value): map<string, Value>
  {
    if v in own then own[v] else map[]
  }

  function Own(st: Store, v: Value): map<string, Value>
  {
    OwnIn(st.own, v)
  }

  /** `v` names only objects the heap has allocated: a built class or its
      prototype, or a created instance. */
  predicate Known(st: Store, v: Value)
  {
    match v
    case Cls(c) => c < |st.classes|
    case Proto(c) => c < |st.classes|
    case Inst(i) => i < |st.instances|
    case _ => true
  }

  ghost predicate TableKnown(st: Store, t: map<string, Value>)
  {
    forall k | k in t :: Known(st, t[k])
  }

  ghost predicate AllKnown(st: Store, s: seq<Value>)
  {
    forall j | 0 <= j < |s| :: Known(st, s[j])
  }

  /** The heap invariant of a running program: every class, prototype and
      instance that the heap stores (in a property, an array element, a class
      record or a mixin) has been allocated, every instance belongs to a built
      class, and a prototype delegates only to the prototype of a class built
      before it. */
  ghost predicate WellFormed(st: Store)
  {
    && (forall c | 0 <= c < |st.classes| :: Known(st, st.classes[c].super) && Known(st, st.classes[c].init))
    && (forall c | 0 <= c < |st.classes| :: st.classes[c].super.Proto? ==> st.classes[c].super.c < c)
    && (forall i | 0 <= i < |st.instances| :: st.instances[i] < |st.classes|)
    && (forall v | v in st.own :: TableKnown(st, st.own[v]))
    && (forall a | 0 <= a < |st.arrays| :: AllKnown(st, st.arrays[a]))
    && AllKnown(st, st.mixins)
  }

  /** `st1` has allocated everything `st0` has. */
  predicate Grows(st0: Store, st1: Store)
  {
    |st0.classes| <= |st1.classes| && |st0.instances| <= |st1.instances|
  }

  /** The earlier class whose prototype the prototype of `c` delegates to, if any. */
  function ParentClass(st: Store, c: ClassId): (r: Option<ClassId>)
    ensures r.Some? ==> r.value < c
  {
    if c < |st.classes| && st.classes[c].super.Proto? && st.classes[c].super.c < c
    then Some(st.classes[c].super.c)
    else None
  }

  /** Property lookup on `Proto(c)`: its own table, then the parent's prototype,
      ending at a root prototype that the library did not build. In a
      well-formed heap it never yields an object that was not allocated. */
  function ProtoGet(st: Store, c: ClassId, k: string): (r: Value)
    ensures WellFormed(st) ==> Known(st, r)
    decreases c
  {
    var t := Own(st, Proto(c));
    if k in t then t[k]
    else match ParentClass(st, c)
      case Some(p) => ProtoGet(st, p, k)
      case None =>
        if c < |st.classes| && k in Own(st, st.classes[c].super)
        then Own(st, st.classes[c].super)[k]
        else Undefined
  }

  /** `v[k]` for a value that is not null or undefined (primitives have no
      properties this model tracks). Reading from an allocated object of a
      well-formed heap yields an allocated object or a value that is none. */
  function Get(st: Store, v: Value, k: string): (r: Value)
    ensures WellFormed(st) && Known(st, v) ==> Known(st, r)
  {
    var t := Own(st, v);
    match v
    case Bool(_) => Undefined
    case Num(_) => Undefined
    case Str(_) => Undefined
    case Cls(c) => if k == "prototype" then Proto(c) else if k in t then t[k] else Undefined
    case Native(n) => if k == "prototype" then NativeProto(n) else if k in t then t[k] else Undefined
    case Fn(f) => if k == "prototype" then FnProto(f) else if k in t then t[k] else Undefined
    case Proto(c) => ProtoGet(st, c, k)
    case Inst(i) =>
      if k in t then t[k]
      else if i < |st.instances| then ProtoGet(st, st.instances[i], k)
      else Undefined
    case Arr(a) =>
      if k == "length" && a < |st.arrays| then Num(|st.arrays[a]|)
      else if k in t then t[k] else Undefined
    case _ => if k in t then t[k] else Undefined
  }

  /** Decimal digits of a natural number, the property key of an array index. */
  function NatKey(n: nat): (r: string)
    ensures |r| > 0
    ensures forall j | 0 <= j < |r| :: '0' <= r[j] <= '9'
  {
    var d := ['0' + (n % 10) as char];
    if n < 10 then d else NatKey(n / 10) + d
  }

  /** `v[i]` for an integer index. */
  function Index(st: Store, v: Value, i: nat): (r: Value)
    ensures WellFormed(st) && Known(st, v) ==> Known(st, r)
  {
    if v.Arr? && v.a < |st.arrays|
    then (if i < |st.arrays[v.a]| then st.arrays[v.a][i] else Undefined)
    else Get(st, v, NatKey(i))
  }

  /** The property key a value converts to when used in `holder[key]`.
      Objects and functions stand for their default string forms. */
  function ToKey(v: Value): string
  {
    match v
    case Str(s) => s
    case Num(n) => if n < 0 then "-" + NatKey(-n) else NatKey(n)
    case Bool(b) => if b then "true" else "false"
    case Undefined => "undefined"
    case Null => "null"
    case Cls(_) => "[object Class]"
    case _ => "[object Object]"
  }

  /** Everything a `for-in` loop visits on a prototype: inherited entries,
      overridden by those nearer the object. */
  function ChainTable(st: Store, c: ClassId): (r: map<string, Value>)
    ensures WellFormed(st) ==> TableKnown(st, r)
    decreases c
  {
    var inherited :=
      match ParentClass(st, c)
      case Some(p) => ChainTable(st, p)
      case None => if c < |st.classes| then Own(st, st.classes[c].super) else map[];
    inherited + Own(st, Proto(c))
  }

  /** The key/value pairs a `for-in` loop over `v` visits (array elements are not modelled). */
  function Enumerable(st: Store, v: Value): (r: map<string, Value>)
    ensures WellFormed(st) ==> TableKnown(st, r)
  {
    match v
    case Proto(c) => ChainTable(st, c)
    case Inst(i) => (if i < |st.instances| then ChainTable(st, st.instances[i]) else map[]) + Own(st, v)
    case _ => Own(st, v)
  }

  /** A `for-in` loop over a prototype sees exactly the keys lookup resolves,
      with the value lookup finds. */
  lemma {:induction false} ChainTableAgrees(st: Store, c: ClassId, k: string)
    ensures k in ChainTable(st, c) ==> ChainTable(st, c)[k] == ProtoGet(st, c, k)
    ensures k !in ChainTable(st, c) ==> ProtoGet(st, c, k) == Undefined
    decreases c
  {
    match ParentClass(st, c)
    case Some(p) => ChainTableAgrees(st, p, k);
    case None =>
  }

  /** The own table after `v[k] = x`; writes to primitives are ignored. */
  function PutOwn(own: map<Value, map<string, Value>>, v: Value, k: string, x: Value): map<Value, map<string, Value>>
  {
    if Primitive(v) then own else own[v := OwnIn(own, v)[k := x]]
  }

  /** A second write to the same key replaces the first. */
  lemma PutOwnTwice(own: map<Value, map<string, Value>>, v: Value, k: string, x: Value, y: Value)
    ensures PutOwn(PutOwn(own, v, k, x), v, k, y) == PutOwn(own, v, k, y)
  {
    if !Primitive(v) {
      var t := OwnIn(own, v);
      assert OwnIn(own[v := t[k := x]], v) == t[k := x];
      assert t[k := x][k := y] == t[k := y];
      assert own[v := t[k := x]][v := t[k := y]] == own[v := t[k := y]];
    }
  }

  /** A heap with one more, empty, array: `Arr(|st.arrays|)`. */
  function WithNewArray(st: Store): Store
  {
    st.(arrays := st.arrays + [[]], own := st.own - {Arr(|st.arrays|)})
  }

  /** The JavaScript heap the library mutates. */
  class Heap {
    var own: map<Value, map<string, Value>>
    var arrays: seq<seq<Value>>
    var classes: seq<ClassRec>
    var instances: seq<ClassId>
    var mixins: seq<Value>

    function View(): Store
      reads this
    {
      Store(own, arrays, classes, instances, mixins)
    }

    /** A heap holding only the empty global object. */
    constructor ()
      ensures View() == Store(map[], [], [], [], []) && WellFormed(View())
    {
      own, arrays, classes, instances, mixins := map[], [], [], [], [];
    }

    /** A fresh empty array literal `[ ]`. */
    method NewArray() returns (a: nat)
      modifies this
      ensures a == |old(arrays)| && View() == WithNewArray(old(View()))
      ensures WellFormed(old(View())) ==> WellFormed(View())
    {
      if WellFormed(View()) {
        NewArrayKeepsWellFormed(View());
      }
      a := |arrays|;
      arrays := arrays + [[]];
      own := own - {Arr(a)};
    }

    /** `v[k] = x` on a value that is not null or undefined. */
    method Put(v: Value, k: string, x: Value)
      requires !Nullish(v)
      modifies this
      ensures View() == old(View()).(own := PutOwn(old(own), v, k, x))
      ensures WellFormed(old(View())) && Known(old(View()), x) ==> WellFormed(View())
    {
      if WellFormed(View()) && Known(View(), x) {
        PutKeepsWellFormed(View(), v, k, x);
      }
      own := PutOwn(own, v, k, x);
    }
  }

  /** Reading back a key just written on a non-primitive gives the written value,
      except for the two keys the host computes (`prototype` on functions, `length` on arrays). */
  lemma GetAfterPut(st: Store, v: Value, k: string, x: Value)
    requires !Nullish(v) && !Primitive(v) && k != "prototype" && k != "length"
    ensures Get(st.(own := PutOwn(st.own, v, k, x)), v, k) == x
  {
    var st1 := st.(own := PutOwn(st.own, v, k, x));
    assert Own(st1, v) == Own(st, v)[k := x];
    match v
    case Proto(c) =>
      assert ProtoGet(st1, c, k) == x;
    case _ =>
  }

  /** A write to key `k1` leaves every prototype lookup of another key as it was. */
  lemma {:induction false} ProtoGetOtherKey(st: Store, v: Value, k1: string, x: Value, c: ClassId, k2: string)
    requires k1 != k2
    ensures ProtoGet(st.(own := PutOwn(st.own, v, k1, x)), c, k2) == ProtoGet(st, c, k2)
    decreases c
  {
    var st1 := st.(own := PutOwn(st.own, v, k1, x));
    assert forall w :: (k2 in Own(st1, w)) == (k2 in Own(st, w));
    assert forall w | k2 in Own(st, w) :: Own(st1, w)[k2] == Own(st, w)[k2];
    assert ParentClass(st1, c) == ParentClass(st, c);
    match ParentClass(st, c)
    case Some(p) => ProtoGetOtherKey(st, v, k1, x, p, k2);
    case None =>
  }

  /** A write to key `k1` leaves every read of another key as it was. */
  lemma GetOtherKey(st: Store, v: Value, k1: string, x: Value, w: Value, k2: string)
    requires k1 != k2
    ensures Get(st.(own := PutOwn(st.own, v, k1, x)), w, k2) == Get(st, w, k2)
  {
    var st1 := st.(own := PutOwn(st.own, v, k1, x));
    assert (k2 in Own(st1, w)) == (k2 in Own(st, w));
    assert k2 in Own(st, w) ==> Own(st1, w)[k2] == Own(st, w)[k2];
    match w
    case Proto(c) => ProtoGetOtherKey(st, v, k1, x, c, k2);
    case Inst(i) =>
      if i < |st.instances| { ProtoGetOtherKey(st, v, k1, x, st.instances[i], k2); }
    case _ =>
  }

  /** In a well-formed heap no link of a prototype chain is dropped: a class
      whose prototype was made to delegate to a built prototype delegates to
      exactly that one, and following the links from any class reaches a root
      prototype in at most `c` steps. */
  lemma LinksKept(st: Store, c: ClassId)
    requires WellFormed(st) && c < |st.classes|
    ensures ParentClass(st, c).Some? <==> st.classes[c].super.Proto?
    ensures ParentClass(st, c).Some? ==> Proto(ParentClass(st, c).value) == st.classes[c].super
  {
  }

  /** `v[k] = x` with an allocated `x` keeps the heap well-formed. */
  lemma PutKeepsWellFormed(st: Store, v: Value, k: string, x: Value)
    requires WellFormed(st) && Known(st, x)
    ensures WellFormed(st.(own := PutOwn(st.own, v, k, x)))
  {
    var st1 := st.(own := PutOwn(st.own, v, k, x));
    forall u | u in st1.own
      ensures TableKnown(st1, st1.own[u])
    {
      if u == v && !Primitive(v) {
        assert st1.own[u] == OwnIn(st.own, v)[k := x];
      } else {
        assert st1.own[u] == st.own[u];
      }
    }
  }

  /** A table allocated in a heap stays allocated as the heap grows, and an
      update with an allocated value keeps it allocated. */
  lemma TableGrows(st0: Store, st1: Store, t: map<string, Value>, k: string, x: Value)
    requires Grows(st0, st1) && TableKnown(st0, t) && Known(st1, x)
    ensures TableKnown(st1, t) && TableKnown(st1, t[k := x])
  {
  }

  /** Splicing two allocated lists gives an allocated list. */
  lemma SpliceGrows(st0: Store, st1: Store, s: seq<Value>, u: seq<Value>, i: nat)
    requires Grows(st0, st1) && AllKnown(st0, s) && AllKnown(st0, u) && i < |s| && i < |u|
    ensures AllKnown(st1, s) && AllKnown(st1, s[..i + 1] + u[i + 1..])
  {
    var w := s[..i + 1] + u[i + 1..];
    forall j | 0 <= j < |w|
      ensures Known(st1, w[j])
    {
      if j <= i {
        assert w[j] == s[j];
      } else {
        assert w[j] == u[j];
      }
    }
  }

  /** A new array literal keeps the heap well-formed. */
  lemma NewArrayKeepsWellFormed(st: Store)
    requires WellFormed(st)
    ensures WellFormed(WithNewArray(st))
  {
    var st1 := WithNewArray(st);
    forall a | 0 <= a < |st1.arrays|
      ensures AllKnown(st1, st1.arrays[a])
    {
      if a < |st.arrays| {
        assert st1.arrays[a] == st.arrays[a];
      }
    }
  }

  /** A heap that only grew, and whose changed own tables hold allocated
      values, has all its own tables well-formed. */
  lemma OwnKnownAfter(st0: Store, st1: Store, changed: set<Value>)
    requires WellFormed(st0) && Grows(st0, st1)
    requires forall v | v !in changed :: OwnIn(st1.own, v) == OwnIn(st0.own, v)
    requires forall v | v in changed :: TableKnown(st1, OwnIn(st1.own, v))
    ensures forall v | v in st1.own :: TableKnown(st1, st1.own[v])
  {
    forall v | v in st1.own
      ensures TableKnown(st1, st1.own[v])
    {
      if v !in changed {
        assert st1.own[v] == OwnIn(st0.own, v);
        if v !in st0.own {
          assert st1.own[v] == map[];
        }
      }
    }
  }
}
