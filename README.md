# class.js / classes.js in Dafny

This project models the core of a small JavaScript class library. The library comes in two versions:

- `classes.js` (0.1.6): classes with mixins, a swappable namespace for name lookup and registration, and a fluent `Class(name).extends(..).uses(..)` builder;
- `class.js` (0.1.5): its narrower predecessor, which has no mixins, registers on the global object and shifts its arguments when only two are given.

The model works on an abstract JavaScript heap (`object_model.dfy`):

- Values are tagged: plain objects, arrays, instances, mixin objects, user functions, host constructors, the constructor and the prototype of each class a build creates, and the closures the library creates.
- The heap holds every object's own properties, the elements of arrays, one record per built class (the parent prototype, the constructor argument, the version), the class of each instance and the constructor object of each mixin.
- Property lookup on a built prototype follows its own table, then the parent's prototype. The chain is followed only toward classes built earlier, so lookup terminates on a decreasing class id.

The files:

- `class_core.dfy` holds the parts both versions spell out the same way: allocating `self` and `self.prototype`, the naming entries, the `for-in` loop that copies the constructor object onto the prototype and gives every function entry its `parent`/`parentApply` companions, the `extend`/`create`/`toString` statics, instantiation, and the ancestor call through `__scope__`.
- `classes.dfy` holds 0.1.6:
  - the `Namespace` class;
  - name normalisation and parent and mixin resolution;
  - the mixin loop, which rewrites string names in the caller's array in place;
  - `createClass`, `assignTo`, the `TempClass` builder (a Dafny class whose `parent` field `extends` updates), the `Class(...)` dispatch and `Class.mixin`.
- `class_v015.dfy` holds 0.1.5: argument shifting, registration on the global object, `assignClass` (where only `0` is anonymous) and its dispatch.
- `versions.dfy` relates the two versions.

A build is specified by the ghost predicate `Created`, which relates the heap before and after `createClass`:

- the build succeeds exactly when the name is valid, the parent exists, every mixin list element answers `mixinTo` and the parent has a name;
- the new prototype holds, in increasing precedence:
  1. `constructor`;
  2. the mixins' entries, in list order;
  3. the naming entries and `__scope__`;
  4. the constructor object's entries;
- the new class holds the parent's own statics, then the naming entries, then the builtins;
- every function entry carries the companions for some key it is stored under (which one depends on the host's enumeration order, which the model leaves open);
- nothing else changes;
- a failed build leaves exactly what `Abandoned` describes: nothing, when the name is refused or the parent is missing; otherwise the allocated class, with the mixin array resolved up to and including the element without `mixinTo` and the prototype holding the mixins before it, or, when the parent has no name, the whole list resolved and mixed and `__class__` written on the class and its prototype.

`Assigned` specifies `assignTo`, and `Finished` specifies a build followed by its registration.

The heap invariant `WellFormed` says that every class, prototype and instance the heap stores (in a property, an array element, a class record or a mixin) has been allocated, every instance belongs to a built class, and a prototype delegates only to the prototype of a class built before it. Allocation, property writes, builds (successful or not), registration, instantiation, the ancestor call and every entry point keep it. On a well-formed heap the class a build is about to allocate is never one of the constructor object's entry values (`FreshClassNotEntry`), so the conditional class-table half of `Created` always applies (`CreatedClassTable`, `ClassStatics`).

Some behaviour is proved about the ancestor call:

- `method.parent(that, ...)` moves `that.__scope__` one level up, runs the ancestor's entry and restores the scope.
- Nested calls climb one class per call and never skip a level (`NestedAncestorCall`).
- The scope starts at the instance's class, not at the class that defined the method. So when an instance's class inherits a method instead of defining it, that method's first ancestor call runs the very entry the instance dispatched to (`InheritedMethodReenters`).

The code behaves as follows in places a reader might not expect, and the model does the same:

- `parent` restores the scope only on a normal return. There is no `try`/`finally`, so an ancestor that throws, or a missing ancestor entry, leaves the scope moved.
- A string parent or mixin that the namespace lacks is not reported as unresolved. It resolves to `undefined`, and the build fails with the host's `TypeError` when it reads `prototype` (for a parent) or calls `mixinTo` (for a mixin).
- A failed build is not all-or-nothing. Mixin names already resolved stay rewritten in the caller's array, and the half-built class stays allocated, although the namespace is not written.
- Mixins have no `extend` operation.
- Calling a class without `new` never throws.

## Model

| member | source | states |
|---|---|---|
| ObjectModel.LinksKept | classes.js:54-64 | on a well-formed heap, the prototype of a class delegates to a built prototype exactly when its record links to one, and then to exactly that one, which belongs to a class built earlier |
| ObjectModel.Get | classes.js:54-57 | `v[k]`: the own table of an object, `prototype` of a class or function computed by the host, primitives give `undefined`; reading from an allocated object of a well-formed heap yields an allocated value |
| ObjectModel.ProtoGet | classes.js:60-64 | lookup on a built prototype: its own table, then the parent prototype it was linked to; on a well-formed heap the result is allocated |
| ObjectModel.PutKeepsWellFormed | classes.js:229-231 | writing an allocated value into any property keeps the heap well-formed |
| ObjectModel.NewArrayKeepsWellFormed | classes.js:154 | allocating an empty array keeps the heap well-formed |
| ObjectModel.ChainTableAgrees | classes.js:89-91 | a `for-in` over a built prototype visits exactly the keys lookup resolves, with the values lookup finds |
| ObjectModel.Heap.NewArray | classes.js:154 | an array literal `[ ]` is a fresh, empty array, nothing else changes, and a well-formed heap stays well-formed |
| ObjectModel.Heap.Put | classes.js:229 | `v[k] = x` replaces one entry of one own table; with an allocated `x` a well-formed heap stays well-formed |
| ObjectModel.GetAfterPut | classes.js:231 | after `v[k] = x` on an object, reading `v[k]` gives `x` (except the host-computed `prototype` and `length`) |
| ObjectModel.GetOtherKey | classes.js:231 | a write to one key leaves every lookup of any other key, on any object, unchanged |
| ClassCore.ParentName | classes.js:78 | `__parent__` is the parent's truthy `__class__`, else the host's name of a constructor; a parent that is neither makes the build throw |
| ClassCore.Meta | classes.js:77-82 | the naming entries are exactly `__class__`, `__parent__`, `parent` and, in 0.1.6, `__mixins__`, holding the name, the parent's name, the mixin list and the parent prototype |
| ClassCore.Builtins | classes.js:125-144 | the statics installed last are exactly `extend`, `create` and `toString`, each a closure of the new class of its own kind |
| ClassCore.CtorEntries | classes.js:89-91 | only a non-null object constructor argument contributes prototype entries; on a well-formed heap they are allocated |
| ClassCore.EntryStep | classes.js:90-109 | one turn of the entry loop sets one prototype key, replaces a function entry's companions with ones for that key, and touches no other table |
| ClassCore.AllocClass | classes.js:54-64 | the new class starts with the parent's own statics, the new prototype with only `constructor`, and the class record links to `parent.prototype` |
| ClassCore.FinishClass | classes.js:76-144 | naming entries on class and prototype, `__scope__` on the prototype, constructor entries over everything, builtins last on the class; companions survive |
| ClassCore.InstallEntries | classes.js:89-112 | the prototype table becomes the old one overridden by all constructor entries, and every function entry carries its companions |
| ClassCore.PlaceEntries | classes.js:90-111 | the entry loop over any host order: prototype gains every entry, function entries get `parent`/`parentApply` for some key holding them, nothing else changes |
| ClassCore.CompanionsStep | classes.js:91-109 | one turn of the entry loop keeps the companion invariant, including when one function is stored under two keys |
| ClassCore.CompanionsTransfer | classes.js:94-144 | the companions installed by the loop survive the later writes to the class itself |
| ClassCore.New | classes.js:31-45 | `new self()` makes a fresh instance that looks everything up on the class's prototype, and calls the constructor function, then `construct`, each only when it is a function; a well-formed heap stays well-formed |
| ClassCore.NewKeepsWellFormed | classes.js:31-45 | adding an instance of a built class keeps the heap well-formed |
| ClassCore.ParentCall | classes.js:96-103 | saves `that.__scope__`, moves it to `scope.parent`, runs `scope.parent[m]` with the remaining arguments, restores the scope and returns the ancestor's result; each failing read throws and leaves the scope as it was at that point; with an allocated receiver a well-formed heap stays well-formed |
| ClassCore.ParentApply | classes.js:104-108 | forwards `that` followed by `args` to the current `parent` companion and returns nothing; through the library's companion, `that.__scope__` is untouched when `that` or its scope is missing, left moved to `scope.parent` when the ancestor lookup fails, and restored on success, with no other table changed; with an allocated `that` a well-formed heap stays well-formed |
| ClassCore.ClimbFromPrototype | classes.js:96-103 | moving the scope up `n` times from a linked prototype lands on the prototype of the `n`-th ancestor |
| ClassCore.ClimbFromClass | classes.js:85 | the same from the class itself, where an instance's scope starts |
| ClassCore.NestedAncestorCall | classes.js:96-103 | the `(n+1)`-th nested ancestor call runs the entry of the `(n+1)`-th ancestor and moves the scope exactly one level |
| ClassCore.InheritedMethodReenters | classes.js:85-100 | for an inherited method, the first ancestor call runs the very entry the instance dispatched to |
| ClassCore.Delegates | classes.js:60-64 | a key absent from a built prototype is looked up on the parent's prototype |
| ClassCore.FreshClassNotEntry | classes.js:89-91 | on a well-formed heap the class a build is about to allocate is never an entry of an allocated constructor object |
| Classes.Namespace.constructor | classes.js:10-11 | at load time the namespace is the global object |
| Classes.Namespace.Set | classes.js:202-204 | `Class.namespace(ns)` selects `ns`, or the global object when `ns` is falsy |
| Classes.NormalizeName | classes.js:18-23 | a truthy object name becomes its element 1; a falsy element 1 throws `Invalid class name value`; `null` and other names pass unchanged |
| Classes.ResolveParent | classes.js:26-50 | a falsy parent becomes `Object`, a string parent the namespace's entry, anything else itself |
| Classes.ResolveAll | classes.js:68-71 | each string element of the mixin list is replaced by the namespace's entry, others kept, the length preserved |
| Classes.FirstNonMixin | classes.js:68-72 | the position of the first element that does not answer `mixinTo`, or the list length |
| Classes.ApplyMixins | classes.js:67-74 | the table after the mixin loop, each element's entries copied over the table so far in list order; it exists exactly when every element answers `mixinTo` |
| Classes.MixinEntries | classes.js:206-213 | `m.mixinTo` throws exactly when `m` is null/undefined or its `mixinTo` is not a function; a library mixin copies its constructor's own entries |
| Classes.LastProvider | classes.js:67-74 | the last mixin in the list that holds a key, if any |
| Classes.MixinPrecedence | classes.js:67-74 | after all mixins, a key holds the value of the last mixin that has it, and otherwise what it held before |
| Classes.ApplyMixinsStep | classes.js:68-73 | applying one more list element copies its entries over the table so far, or fails |
| Classes.ApplyMixinsFailureSticks | classes.js:68-73 | once an element is not a mixin, the whole list fails |
| Classes.MixinTo | classes.js:207-213 | the `for-in` copy leaves the target overridden by every entry of the source |
| Classes.ResolveAndMix | classes.js:67-74 | the loop succeeds exactly when `ApplyMixins` does, and then resolves every element and mixes every table; on failure the array holds the resolved elements up to and including the first one without `mixinTo` and the original ones after it, and the table holds the mixins before that element |
| Classes.MixinLoop | classes.js:67-74 | on the heap: the caller's array receives the resolved elements (all of them, or up to and including the failing one) and the prototype the mixed table (all of it, or the mixins before the failing one); nothing else changes |
| Classes.CreateClass | classes.js:14-147 | `createClass` as `Created` states it, success and failure; an invalid name or a missing parent throws before anything changes; from allocated arguments a well-formed heap stays well-formed and the class returned is allocated |
| Classes.Created | classes.js:14-147 | the build succeeds exactly when the name, the parent, every mixin and the parent's name pass; on success it fixes the class record, the mixin array, the prototype table, and, when the class is not an entry of the constructor object, the class table and the companions; on failure `Abandoned` holds |
| Classes.Abandoned | classes.js:54-78 | a failed build changes nothing before the class is allocated; after, it keeps the class record and the mixin array resolved up to the failing element, or writes `__class__` when only the parent's name fails |
| Classes.Assemble | classes.js:30-147 | a build whose name and parent checks pass ends as `Created` states, including the abandoned states when a mixin or the parent's name fails |
| Classes.Complete | classes.js:76-146 | once the mixins are applied, the rest of the build ends as `Created` states: with `__class__` written and an error when the parent has no name, with the whole class otherwise |
| Classes.PrototypePrecedence | classes.js:64-112 | constructor entries beat `__scope__`, which beats the naming entries, which beat the last mixin with the key, which beats `constructor`; any other key is absent |
| Classes.ClassStatics | classes.js:55-144 | on a well-formed heap the new class keeps the parent's own statics unless overwritten; `extend`/`create`/`toString` are the new class's own, and `toString` returns `[object Class]` |
| Classes.CreatedClassTable | classes.js:55-144 | on a well-formed heap a successful build's class table is the parent's statics, then the naming entries, then the builtins |
| Classes.CreatedKeepsWellFormed | classes.js:14-147 | a build from allocated arguments keeps a well-formed heap well-formed, on success and on each failure path, and returns an allocated class |
| Classes.AssignTo | classes.js:225-235 | a falsy name returns the value; `[holder, key]` writes `holder[key]`; a string writes the namespace; anything else throws; the registering branches return nothing |
| Classes.SlotOf | classes.js:226-234 | a falsy name is anonymous, a truthy string names a namespace entry, a truthy object of `length` 2 is a `[holder, key]` pair; anything else is refused |
| Classes.AssignedKeepsWellFormed | classes.js:225-235 | registering an allocated value keeps a well-formed heap well-formed, adds no class and returns an allocated value |
| Classes.RegisteredNameResolves | classes.js:229-231 | after registering under a string, that string resolves to the value as a parent and as a mixin |
| Classes.RegisteringKeepsOtherNames | classes.js:231 | registering under one name leaves what every other name resolves to |
| Classes.BuildAndAssign | classes.js:185-191 | `assignTo(name, createClass(...))`: a failed build is returned as is, a successful one is registered |
| Classes.FinishedCountsOneClass | classes.js:185-191 | a build-and-register adds one class when the name and parent checks pass (even if the build fails later) and none otherwise; a successful one returns the class only for a falsy name |
| Classes.CreatedCountsClasses | classes.js:54-64 | a build allocates its class record as soon as the name and the parent pass, and keeps it when it fails later |
| Classes.FinishedKeepsWellFormed | classes.js:185-191 | a build followed by its registration keeps a well-formed heap well-formed |
| Classes.AssignKeepsClasses | classes.js:225-235 | registering never adds a class, and returns the value exactly for a falsy name |
| Classes.TempClass.constructor | classes.js:152-154 | a builder starts with a `null` parent and a fresh empty mixin array |
| Classes.Pushed | classes.js:156 | the elements `push.apply` appends: an array's elements, nothing for any other value; on a well-formed heap they are allocated |
| Classes.TempClass.Uses | classes.js:155-163 | appends the given array's elements to the builder's mixin list, then builds and registers once when a constructor is given, else returns the same builder |
| Classes.TempClass.Extends | classes.js:164-172 | replaces the builder's parent, then builds and registers once when a constructor is given, else returns the same builder |
| Classes.UsesKeepsWellFormed | classes.js:155-163 | pushing allocated mixins and then building and registering keeps a well-formed heap well-formed |
| Classes.RouteOf | classes.js:179-191 | one truthy object or function argument builds anonymously; otherwise at most one argument makes a builder; two build from `Object`; three use the given parent |
| Classes.AnonymousAlwaysBuilds | classes.js:180-181 | one object or function argument always yields an anonymous subclass of `Object` with that constructor |
| Classes.ClassCall | classes.js:178-192 | `Class(...)` with at most one argument builds anonymously or returns a fresh builder; with two it builds from `Object`; with three it uses the given parent; each build gets a fresh `[ ]` |
| Classes.ClassCallKeepsWellFormed | classes.js:178-192 | every route of `Class(...)` with allocated arguments keeps a well-formed heap well-formed |
| Classes.Extend | classes.js:125-127 | `extend(name, ctor)` builds a subclass of this class, registers it and returns nothing |
| Classes.ExtendKeepsWellFormed | classes.js:125-127 | `extend` on a built class keeps a well-formed heap well-formed |
| Classes.Mixin | classes.js:194-200 | `Class.mixin` makes a mixin whose `mixinTo` copies the constructor's own entries and assigns it like a class; one argument makes it anonymous |
| Classes.MixinKeepsWellFormed | classes.js:194-214 | making a mixin from an allocated constructor and registering it keeps a well-formed heap well-formed |
| ClassV015.NormalizeName | class.js:17-22 | every `typeof 'object'` name takes the object path: `null` throws, a falsy element 1 throws `Invalid class name value` |
| ClassV015.ShiftArguments | class.js:26-29 | with an undefined constructor the parent becomes the constructor and `Object` the parent |
| ClassV015.ResolveParent | class.js:49-51 | a string parent is the global object's entry of that name, anything else itself; allocated on a well-formed heap |
| ClassV015.CreateClass | class.js:13-137 | the 0.1.5 build as its `Created` states: no mixins, no `__mixins__`, parents by global name; an invalid name or missing parent throws before anything changes; from allocated arguments a well-formed heap stays well-formed |
| ClassV015.Created | class.js:13-137 | succeeds exactly when the name, the parent and the parent's name pass, and then fixes the class record and prototype table, and the class table when the class is not an entry; on failure `Abandoned` holds |
| ClassV015.Abandoned | class.js:17-69 | a failed build changes nothing when the name or parent fails; when the parent has no name it keeps the class with `__class__` written on it and on its prototype |
| ClassV015.CreatedKeepsWellFormed | class.js:13-137 | a build from allocated arguments keeps a well-formed heap well-formed and returns an allocated class |
| ClassV015.Complete | class.js:67-136 | the rest of the 0.1.5 build once the class exists: `__class__` written and an error when the parent has no name, the whole class otherwise |
| ClassV015.SlotOf | class.js:168-178 | only the number `0` is anonymous and only strings register on the global object |
| ClassV015.AssignClass | class.js:168-178 | `0` returns the value, `[holder, key]` writes `holder[key]`, a string writes the global object, `null` throws the host's error for reading `length`, anything else throws `Invalid class name value` |
| ClassV015.BuildAndAssign | class.js:155 | `assignClass(name, createClass(...))` |
| ClassV015.FinishedKeepsWellFormed | class.js:155 | a build followed by its registration keeps a well-formed heap well-formed |
| ClassV015.RegisteredNameResolves | class.js:174 | after registering under a string, that string resolves to the value as a parent |
| ClassV015.Extends | class.js:142-146 | the builder's `extends(parent, ctor)` builds and registers in one step |
| ClassV015.ClassCall | class.js:151-157 | one argument returns a builder and changes nothing; any other count builds and registers at once |
| ClassV015.ClassCallKeepsWellFormed | class.js:151-157 | `Class(...)` with allocated arguments keeps a well-formed heap well-formed |
| ClassV015.Extend | class.js:115-117 | `extend(name, ctor)` calls `Class(name, this class, ctor)`, registers the result and returns nothing; with `ctor` undefined the arguments shift, so the class is built from `Object` with this class as its constructor argument |
| ClassV015.NoArgumentsBuildsThenFails | class.js:151-157 | `Class()` builds a subclass of `Object` and then throws when it registers under `undefined` |
| ClassV015.NoArgumentsBuilds | class.js:13-29 | the build with no arguments succeeds with `Object` as parent |
| Versions.NameNormalization | class.js:17-22 | the two versions normalise names alike except `null`, kept by 0.1.6 and refused by 0.1.5 |
| Versions.AnonymousNames | classes.js:226-227 | 0.1.6 returns the value for every falsy name, 0.1.5 only for `0`; `""` registers in 0.1.5 only |
| Versions.SameOutcomeWithoutMixins | classes.js:14-147 | with the global namespace, no mixins, a parent and a constructor, both versions succeed or fail together |
| Versions.SamePrototypeWithoutMixins | classes.js:76-85 | when both succeed they build the same class, with prototypes that differ only in `__mixins__` |

## Left out

- Host plumbing is not modelled: the module/global export (classes.js:244-248; class.js:151 only as far as `_global.Class` is assigned), `this`/`new` binding and the `typeof`/`isFunc` runtime checks, which are reduced to value tags.
- `getNativeClassName` is not modelled. It applies the host's `Object.prototype.toString` to `new parent()`, and `ParentName` stands in for it: a host constructor gives its own name, any other function gives `Object`, and a non-function without a truthy `__class__` throws.
- The "called without new" guard is left out. It parses as `(!inst) instanceof self` and never throws.
- Constructor and method bodies are opaque. `New` records the order of the two initialiser calls, and an ancestor's body is taken to return a given value and leave the heap as it found it.
- A `mixinTo` function that the library did not make is opaque and copies nothing.
- `for-in` over strings, arrays and host objects is left out. Only own tables and built prototype chains are enumerated, and array elements are not keys.
- `ToKey` approximates the host's string conversion of a key. A library class converts to `[object Class]` through its own `toString`, but every other object, array and function converts to `[object Object]`. The host instead joins an array's elements with commas and gives a function's source text, and a `toString` method that the object or its prototype defines is not consulted.
- Writes to a function's `prototype` or an array's `length` through `holder[key]` are stored in the own table but never read back. `Get` always answers those two keys from the host's own value.
- Closures the library makes (`extend`, `create`, `toString`, `parent`, `parentApply`, `mixinTo`) have no `prototype` object in the model: reading `prototype` from one gives `undefined` unless a write stored one, where the host gives a fresh object.
- Array elements are kept apart from an array's own properties. An index write through `holder[key]` on an array updates the property table, not the element list.
- A property write on a primitive (sloppy mode) is ignored.
- Error texts other than the library's own messages approximate the host's `TypeError` texts.
- Classes.TempClass.Uses: only a real array is spread by `push.apply`. Another array-like object pushes nothing, and a primitive throws.
- ClassCore.FinishClass: the facts about the class table and the companions are stated only when the new class itself is not one of the constructor object's entry values, because only then is the class's own table not also a method's table. On a well-formed heap that always holds (`FreshClassNotEntry`).
- Classes.CreateClass: the class-table half of `Created` is conditional in the same way. `CreatedClassTable` and `ClassStatics` state it unconditionally for well-formed heaps.
- ClassV015.CreateClass: the class-table half of its `Created` is conditional in the same way, and holds on every well-formed heap.
- ClassV015.Extend: `_global.Class` is called by name (class.js:116). The model calls the 0.1.5 dispatch directly and does not model a reassigned global `Class`.
- ClassCore.ParentApply: `args` is taken as the element list that `Array.prototype.slice.call(args, 0)` produces. The `TypeError` for a `null` or `undefined` `args`, and the copying of array-like objects and strings by index, are not modelled.
- ObjectModel.ProtoGet: reads the prototype at the end of a built chain (one the library did not build, such as the `prototype` of a plain object given as parent) as a single own table. It does not follow that object's own prototype chain, and host prototypes do not reach `Object.prototype`: host members are found only when they sit in the store's own tables, and the initial heap holds none.
- ClassCore.ParentCall: an ancestor that throws is not modelled. The scope then stays moved, as it does on the modelled failure paths.
