# autobind, modelled in Dafny

The `@autobind` decorator of core-decorators replaces a class method with an
accessor property. The first time the method is read from an instance, it is
bound to that instance, and the bound function is cached on the instance as a
hidden own property. A detached call such as `const f = obj.method; f()` then
still runs with `this === obj`. Two special cases exist:

- a read from the prototype itself returns the original function;
- a `super.method()` call from an autobound override is served from a
  module-level two-level cache (`mapStore`: instance -> function -> bound
  function). This keeps the parent's bound function from being installed over
  the child's method.

The project has six modules:

- `Values` (values.dfy): values of the host language. A bound function
  `Bound(target, ctx, boundId)` carries its own identity, so "the same function
  object" and "a function bound to the same receiver" are two different facts.
  `Dispatch` says what a call runs and with which `this`; `Bind` is `bind(fn,
  context)`.
- `JsObjects` (heap.dfy): a heap of objects. Each object has its own property
  table (data or accessor slots with their attributes), its `constructor`
  class and its prototype. Each class names its `prototype` object. `Lookup`
  searches along the prototype chain, and `DefineOwn` is
  `Object.defineProperty`.
- `Autobind` (autobind.dfy): the mechanism as pure state transitions over
  (heap, `mapStore`, identity counter). These are `GetBoundSuper`,
  `HandleDescriptor` and the accessor's `Get` and `Set`, plus `ReadVia` and
  `Read`, which run the accessor when a property read reaches it. The
  properties the source promises are proved about them.
- `Identities` (identities.dfy): the invariant that every bound function
  object held in the state (in a property, an accessor or either side of a
  cache entry, also nested inside another bound function) has an identity the
  counter has already handed out. Ordinary functions `Fn(fnId)` have identities
  of their own and never draw from the counter; a bound function can never
  equal one. Every operation
  keeps it, so every binding the getter or `getBoundSuper` creates differs
  from every value the program held before, as `bind` makes a new object on
  each call.
- `Scenarios` (scenarios.dfy): whole class hierarchies run through those
  transitions, stated for every heap that contains the hierarchy. It covers
  two instances of one class, the parent/child `super` pattern, a three-level
  chain in which every class overrides and autobinds the method, and a
  three-level hierarchy whose last class does not override it.
- `AutobindRuntime` (runtime.dfy): the same mechanism written as code runs
  it. A `Runtime` object holds the heap, `mapStore` and the counter as fields
  and updates them in place: lazy allocation of `mapStore` and of each inner
  map, `defineProperty` on the receiver. Each method is proved to produce
  exactly the result and the state of the corresponding pure transition, so
  every lemma about `Autobind` holds of the methods, and to keep the invariant
  of `Identities`.

Inputs the code takes from its environment are parameters:

- whether `WeakMap` exists is `hasWeakMap`;
- the heap a program has built is the `Runtime` constructor's argument, with
  a bound on the identities of the bound function objects it already holds.

## Model

| member | source | states |
|---|---|---|
| Values.Callable | src/autobind.js:41 | `typeof v === 'function'`: every ordinary function is callable, and only functions (ordinary or bound) are |
| Values.Dispatch | src/autobind.js:3-11 | a call succeeds exactly when the callee is callable |
| Values.Bind | src/autobind.js:3-11 | the result is callable and, called with any receiver, runs `fn` with `this` fixed to `context` |
| Values.RebindKeepsFirstContext | src/autobind.js:3-11 | binding an already bound function again does not change the receiver it calls with |
| JsObjects.Lookup | src/autobind.js:51-75 | the slot a read finds is well formed, and an own property wins over anything inherited |
| JsObjects.DefineOwn | src/autobind.js:66-72 | `defineProperty` gives `o` exactly `slot` under `key` and changes no other object, key, constructor or prototype |
| JsObjects.DefineOwnWellFormed | src/autobind.js:66-72 | defining a well-formed property keeps the heap well formed |
| JsObjects.LookupAfterDefineOwn | src/autobind.js:66-72 | defining `key` on `o` changes nothing that a lookup of another key finds, nor what a lookup of `key` finds from an object that does not inherit from `o` |
| JsObjects.LookupDefinedOwn | src/autobind.js:66-72 | right after defining `key` on `o`, reading `o.key` finds the new property |
| Autobind.GetBoundSuper | src/autobind.js:15-38 | without `WeakMap`: the error and no change. Otherwise: the result is cached for (obj, fn); an existing entry is returned unchanged with no state change; a missing one becomes `fn` bound to `obj` under the counter's next identity, and the counter advances; every other entry and the heap stay as they were; at most `obj` is added to the outer map and `fn` to its inner map; the cache invariant is kept |
| Autobind.GetBoundSuperIsMemoized | src/autobind.js:23-37 | a second call for the same pair returns the identical function and changes nothing |
| Autobind.DecoratedValue | src/autobind.js:40 | the `value` taken out of a data descriptor; a function is found only in a data descriptor |
| Autobind.IsSuperCall | src/autobind.js:60 | never true for a receiver of the class the accessor was defined for, nor for a class with no prototype object; true only when the receiver's class prototype has its own `key` |
| Autobind.HandleDescriptor | src/autobind.js:40-50 | fails with `InvalidTarget` exactly when the member is not a function; otherwise the descriptor is a configurable, non-enumerable accessor closing over target, key, fn and `target.constructor` |
| Autobind.Get | src/autobind.js:51-75 | on the defining prototype: `fn` unbound, no change. From any other receiver, the value calls `fn` with `this` = receiver. The only error is the missing `WeakMap` on the super-call path, with no change. A super call leaves the heap alone and returns the cached value. The common case returns `fn` bound under the counter's next identity, advances the counter, and installs it as the receiver's own `key`. Only the super-call path touches the cache, and no other property changes |
| Autobind.Set | src/autobind.js:76-84 | the receiver's own `key` becomes an enumerable, writable, configurable data property holding `newValue`; nothing else changes |
| Autobind.ReadVia | src/autobind.js:51-75 | a read through the accessor keeps the invariant and the shape of the heap, and changes no property except the receiver's `key` |
| Autobind.Read | src/autobind.js:51-75 | `obj.key` keeps the invariant and the shape of the heap; a data property found on the chain (among them the binding an earlier read installed) is returned as is with no change; a missing property gives `undefined`; no property but `obj.key` changes |
| Autobind.ReadOnPrototype | src/autobind.js:54-56 | reading the accessor on its own prototype gives the original function and changes nothing |
| Autobind.GetInstallsBoundMethod | src/autobind.js:64-74 | the getter's common case is one `defineProperty` of the bound function plus one new identity, with the cache unchanged |
| Autobind.ReadInstallsBoundMethod | src/autobind.js:64-74 | a read that reaches the accessor in the common case binds `fn` to the receiver, installs it as a non-enumerable own `key` and changes nothing else |
| Autobind.ReadResolvesSuperCall | src/autobind.js:60-62 | a read that reaches the accessor in the super-call case is `getBoundSuper(receiver, fn)` |
| Autobind.ReadIsStable | src/autobind.js:54-74 | reading `obj.key` twice gives the same result, and the second read changes nothing, on every path of the getter |
| Autobind.ReadBindsReceiver | src/autobind.js:60-74 | whatever path the getter takes from a receiver other than the prototype, the value runs `fn` with `this` = receiver |
| Autobind.ReadAfterSet | src/autobind.js:76-84 | after the setter ran, reading `key` gives exactly the value assigned, and `key` is an enumerable own key |
| Autobind.BoundByReadIsHidden | src/autobind.js:66-72 | the property a common-case read installs is not among the receiver's enumerable own keys |
| Autobind.ReadLeavesOtherReadsAlone | src/autobind.js:64-74 | a read of `obj.key` changes nothing that a lookup of another key finds, nor what a lookup of `key` finds from an object that does not inherit from `obj` |
| Identities.IdBound | src/autobind.js:5 | bounds the bound-function identities inside a value: above the identity of every bound function object nested in it (ordinary functions contribute none) |
| Identities.BindIdBound | src/autobind.js:5 | a binding made with identity `id` from a function holding only smaller bound-function identities is the newest bound function object inside it |
| Identities.NewIdIsUnseen | src/autobind.js:5 | in a state satisfying the invariant, a value carrying a bound-function identity not yet handed out is held by no property, accessor or cache entry |
| Identities.FreshLater | src/autobind.js:64 | advancing the counter keeps the invariant |
| Identities.DefineOwnBelow | src/autobind.js:66-72 | defining a slot holding only drawn bound-function identities keeps every bound-function identity in the heap drawn |
| Identities.DefineKeepsFresh | src/autobind.js:66-72 | `defineProperty` with such a slot keeps the invariant |
| Identities.InstallKeepsFresh | src/autobind.js:64-72 | binding under the next identity, advancing the counter and installing the binding keeps the invariant |
| Identities.LookupBelow | src/autobind.js:51-75 | whatever a read finds along the prototype chain holds only drawn bound-function identities |
| Identities.HandleDescriptorBelow | src/autobind.js:40-50 | the accessor the decorator makes holds no bound-function identity the descriptor did not hold |
| Identities.GetBoundSuperKeepsFresh | src/autobind.js:15-38 | `getBoundSuper` keeps the invariant, and its result holds only drawn bound-function identities |
| Identities.GetBoundSuperMakesNewObject | src/autobind.js:33-35 | the first `getBoundSuper` for a pair returns an object held nowhere before |
| Identities.GetKeepsFresh | src/autobind.js:51-75 | the getter keeps the invariant on every path, and its result holds only drawn bound-function identities |
| Identities.GetMakesNewObject | src/autobind.js:64-74 | the getter's common case returns an object held nowhere before |
| Identities.ReadViaKeepsFresh | src/autobind.js:51-75 | a read keeps the invariant, and its result holds only drawn bound-function identities |
| Identities.ReadBindsNewObject | src/autobind.js:64-74 | a read of `obj.key` that binds the method returns an object different from every value held before, so `obj.key === obj.x` is false for every other property `x` |
| Identities.SetKeepsFresh | src/autobind.js:76-84 | the setter keeps the invariant when the value assigned is one the program holds |
| Scenarios.TwoInstancesScenario | src/autobind.js:51-75 | two instances of one class get different bound functions, each with `this` fixed to its own instance; binding one leaves the other without an own property; the prototype still gives the original function |
| Scenarios.SuperCallScenario | src/autobind.js:60-62 | child method bound to the instance, `super.m` gives the parent method bound to the instance without touching the heap; the next `b.m` still gives the child's bound method and the next `super.m` gives the identical cached function |
| Scenarios.ChainFirstRead | src/autobind.js:54-74 | in a chain where every class autobinds `m`, `c.m` finds C's own getter and binds C's method to `c` |
| Scenarios.ChainSuperRead | src/autobind.js:60-62 | in that chain, once `c` holds `m`, a `super.m` read reaching A's or B's getter goes to `getBoundSuper` for `c` and that class's method |
| Scenarios.ChainSuperReadB | src/autobind.js:60-62 | the `super.m()` inside C's method gives B's method bound to `c` under the next identity and leaves the heap alone |
| Scenarios.ChainSuperReadA | src/autobind.js:60-62 | the `super.m()` inside B's method gives a value that runs A's method with `this` = `c` and leaves the heap alone |
| Scenarios.OverridingChainKeepsMethod | src/autobind.js:58-62 | every level overriding and autobinding `m`: both nested `super.m()` reads go through the cache, the heap keeps only C's binding on `c`, and `c.m` afterwards is still C's bound method |
| Scenarios.GrandparentFirstRead | src/autobind.js:64-74 | in a three-level hierarchy, `c.m` binds the middle class's method to `c` and installs it |
| Scenarios.GrandparentSuperRead | src/autobind.js:60-74 | in that hierarchy, the `super.m` read reaching the top class's getter takes the common path and installs the top method on `c` |
| Scenarios.GrandparentSuperCallReplacesMethod | src/autobind.js:60 | with a grandchild class that does not override the method, `super.m()` installs the top method over the middle one, and later reads of `c.m` run the top method |
| AutobindRuntime.Runtime.constructor | src/autobind.js:13 | a program before any autobound read: a well-formed heap, no `mapStore`, and a counter above every bound-function identity the heap holds (ordinary functions are not bounded) |
| AutobindRuntime.Runtime.DefineProperty | src/autobind.js:66-72 | the heap becomes `DefineOwn` of the old heap; the cache and counter are unchanged; the invariant is kept |
| AutobindRuntime.Runtime.GetBoundSuper | src/autobind.js:15-38 | the in-place lazy allocation and `.set` calls end in exactly the result and state of `Autobind.GetBoundSuper` |
| AutobindRuntime.Runtime.Decorate | src/autobind.js:88-90 | the result is `HandleDescriptor`'s; on success the accessor is defined on the target, on failure nothing changes |
| AutobindRuntime.Runtime.Get | src/autobind.js:51-75 | the getter run in place ends in exactly the result and state of `Autobind.Get` |
| AutobindRuntime.Runtime.Set | src/autobind.js:76-84 | the setter run in place ends in exactly the state of `Autobind.Set` |
| AutobindRuntime.Runtime.ReadVia | src/autobind.js:51-75 | a read through the accessor, run in place, ends in exactly the result and state of `Autobind.ReadVia` |
| AutobindRuntime.Runtime.Read | src/autobind.js:51-75 | `obj.key`, run in place, ends in exactly the result and state of `Autobind.Read` |

## Left out

- `decorate` (src/autobind.js:1, 89) is not part of this model. It only decides
  whether the decorator was applied bare or with arguments. `Runtime.Decorate`
  applies `handleDescriptor` directly and defines its result, as the decorator
  machinery does with the returned descriptor.
- The native `fn.bind` and the `__autobind__` fallback closure (src/autobind.js:4-10)
  are one definition, `Bind`. They call the same function with the same
  receiver and differ only in cost.
- `WeakMap` garbage collection and weak references are not modelled. The
  caches are finite maps whose entries are never evicted.
- The inner maps of `mapStore` are values in the model, not shared objects.
  The source never lets them escape `getBoundSuper`, so no aliasing can be
  observed.
- The text of the error messages is not modelled. Only which error is raised
  is kept.
- `defineProperty` failures are not modelled: a non-extensible receiver, or a
  non-configurable own `key`, would make `Object.defineProperty` throw. The
  model lets every definition succeed.
- Values the program passes in (the decorated member, the value assigned by
  the setter, the function given to `getBoundSuper`) are required to hold only
  bound-function identities the counter has already handed out: they already
  exist when passed.
- Ordinary assignment (`obj.key = v`, the language's [[Set]] walking the chain)
  is not modelled. The setter is stated as a call with `this` = receiver.
- Primitive receivers (`this` a number or string in sloppy mode) are not
  modelled. The receiver is always an object.
- `this.constructor` is a field of each object, fixed when the object is made.
  Reassigning `constructor`, or deleting it, is not modelled.
- Autobind.IsSuperCall: when the receiver's `constructor` names a class without
  a prototype object, `this.constructor.prototype.hasOwnProperty` throws a
  TypeError at src/autobind.js:60. The model instead treats the case as not a
  super call. The heap invariant does not require each constructor to have a
  prototype, so that a single-object heap costs nothing to state.
- The heap invariant does not say that prototype chains and constructors
  agree (that `C.prototype` lies on the chain of every instance of `C`).
  Scenarios state the hierarchy they need in their own preconditions.
- The test at src/autobind.js:60 looks only at the receiver's own class.
  This is kept exactly as written. The comment at src/autobind.js:58-59
  covers chains in which every level overrides and autobinds the method
  ("and so on"); `Scenarios.OverridingChainKeepsMethod` proves that case
  behaves as intended. A subclass that does not override the method is not
  mentioned there. That case is `Scenarios.GrandparentSuperCallReplacesMethod`:
  the method of the top class is installed over the middle one's. It is
  stated as behaviour of the code, not as a defect, since the source does not
  say what it intends for it.
