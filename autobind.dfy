/** The autobind mechanism of src/autobind.js as state transitions: the
    super-binding cache (`getBoundSuper`), the descriptor the decorator produces
    (`handleDescriptor`) and the getter and setter of that descriptor, over a
    state made of the object heap, the module-level `mapStore` and the counter
    that gives each new bound function its identity. */
module Autobind {
  import opened Values
  import opened JsObjects

  /** The two errors the mechanism raises: the `SyntaxError` for a decorated
      member that is not a function, and the error for a missing `WeakMap`. */
  datatype Error = InvalidTarget | UnsupportedRuntime

  datatype Result<T> = Ok(value: T) | Err(error: Error)

  /** One inner map of `mapStore`: decorated function -> function bound to the instance. */
  type SuperStore = map<Value, Value>

  /** `mapStore`: instance -> its SuperStore. */
  type MapStore = map<ObjId, SuperStore>

  /** Everything the mechanism reads or writes: objects, `mapStore` (`None` until
      first allocated, src/autobind.js:13) and the identity the next bound
      function object gets. */
  datatype State = State(heap: Heap, mapStore: Option<MapStore>, nextId: nat)

  /** The outcome of an operation: what it returns or throws, and the state after it. */
  datatype Step = Step(result: Result<Value>, post: State)

  /** The bound function cached for (`obj`, `fn`), if any. */
  function Cached(s: State, obj: ObjId, fn: Value): Option<Value> {
    if s.mapStore.Some? && obj in s.mapStore.value && fn in s.mapStore.value[obj]
    then Some(s.mapStore.value[obj][fn])
    else None
  }

  /** The instances that have an inner map. */
  function CachedInstances(s: State): set<ObjId> {
    if s.mapStore.Some? then s.mapStore.value.Keys else {}
  }

  /** The functions cached for `obj`. */
  function CachedFunctions(s: State, obj: ObjId): set<Value> {
    if s.mapStore.Some? && obj in s.mapStore.value then s.mapStore.value[obj].Keys else {}
  }

  /** `v` is `fn` bound to `obj`. */
  predicate IsBinding(v: Value, fn: Value, obj: ObjId) {
    v.Bound? && v.target == fn && v.ctx == obj
  }

  /** Every function cached for (`obj`, `fn`) is `fn` bound to `obj`. */
  ghost predicate CacheOk(m: Option<MapStore>) {
    m.Some? ==>
      forall o: ObjId, f: Value :: o in m.value && f in m.value[o] ==> Callable(f) && IsBinding(m.value[o][f], f, o)
  }

  /** The invariant of the whole state. */
  ghost predicate Valid(s: State) {
    WellFormed(s.heap) && CacheOk(s.mapStore)
  }

  /** getBoundSuper(obj, fn), src/autobind.js:15-38. Without `WeakMap` it throws
      and changes nothing. Otherwise it returns the function bound to `obj` that
      is cached for (`obj`, `fn`), creating and caching it on the first call;
      the heap, and every other cache entry, is left alone, and the call adds at
      most `obj` to the instances and `fn` to `obj`'s functions. */
  function GetBoundSuper(s: State, hasWeakMap: bool, obj: ObjId, fn: Value): (r: Step)
    requires Callable(fn)
    ensures CacheOk(s.mapStore) ==> CacheOk(r.post.mapStore)
    ensures !hasWeakMap ==> r == Step(Err(UnsupportedRuntime), s)
    ensures hasWeakMap ==> r.result.Ok? && Cached(r.post, obj, fn) == Some(r.result.value)
    ensures hasWeakMap && Cached(s, obj, fn).Some? ==> r == Step(Ok(Cached(s, obj, fn).value), s)
    ensures hasWeakMap && Cached(s, obj, fn).None? ==>
              r.result == Ok(Bind(fn, obj, s.nextId)) && r.post.nextId == s.nextId + 1
    ensures r.post.heap == s.heap
    ensures forall o: ObjId, f: Value {:trigger Cached(r.post, o, f)} :: (o, f) != (obj, fn) ==> Cached(r.post, o, f) == Cached(s, o, f)
    ensures hasWeakMap ==> CachedInstances(r.post) == CachedInstances(s) + {obj}
    ensures hasWeakMap ==> CachedFunctions(r.post, obj) == CachedFunctions(s, obj) + {fn}
  {
    if !hasWeakMap then Step(Err(UnsupportedRuntime), s)
    else
      var store := if s.mapStore.None? then map[] else s.mapStore.value;
      var store := if obj !in store then store[obj := map[]] else store;
      var superStore := store[obj];
      if fn !in superStore then
        var bound := Bind(fn, obj, s.nextId);
        var post := State(s.heap, Some(store[obj := superStore[fn := bound]]), s.nextId + 1);
        assert forall o: ObjId, f: Value :: (o, f) != (obj, fn) ==> Cached(post, o, f) == Cached(s, o, f);
        assert CacheOk(s.mapStore) ==> CacheOk(post.mapStore) by {
          if CacheOk(s.mapStore) {
            forall o: ObjId, f: Value | o in post.mapStore.value && f in post.mapStore.value[o]
              ensures Callable(f) && IsBinding(post.mapStore.value[o][f], f, o)
            {
              if (o, f) != (obj, fn) { assert Cached(post, o, f) == Cached(s, o, f); }
            }
          }
        }
        Step(Ok(bound), post)
      else
        Step(Ok(superStore[fn]), s.(mapStore := Some(store)))
  }

  /** The `value` that `{ value: fn }` takes out of a descriptor; an accessor
      descriptor has none. */
  function DecoratedValue(desc: Slot): (r: Value)
    ensures desc.Data? ==> r == desc.value
    ensures Callable(r) ==> desc.Data?
  {
    if desc.Data? then desc.value else Undefined
  }

  /** handleDescriptor(target, key, descriptor), src/autobind.js:40-86. A member
      that is not a function is refused, and no descriptor is produced. A
      function gets a configurable, non-enumerable accessor whose getter and
      setter close over `target`, `key`, the function and `target.constructor`
      as it is at decoration time. */
  function HandleDescriptor(h: Heap, target: ObjId, key: Key, desc: Slot): (r: Result<Slot>)
    requires target in h.objects
    ensures r.Err? <==> !Callable(DecoratedValue(desc))
    ensures r.Err? ==> r.error == InvalidTarget
    ensures r.Ok? ==> r.value.Accessor? && r.value.configurable && !r.value.enumerable
    ensures r.Ok? ==> r.value.closure == Autobound(target, key, DecoratedValue(desc), h.objects[target].ctor)
    ensures r.Ok? ==> SlotOk(key, r.value)
  {
    var fn := DecoratedValue(desc);
    if !Callable(fn) then Err(InvalidTarget)
    else Ok(Accessor(Autobound(target, key, fn, h.objects[target].ctor), false, true))
  }

  /** The test of src/autobind.js:60: the receiver's class is not the class the
      accessor was defined for, and that class's own prototype has its own `key`.
      A class without a prototype object has no own `key` there. */
  predicate IsSuperCall(h: Heap, c: Autobound, recv: ObjId): (r: bool)
    requires recv in h.objects
    ensures h.objects[recv].ctor == c.owner ==> !r
    ensures h.objects[recv].ctor !in h.classes ==> !r
    ensures r ==> h.objects[recv].ctor in h.classes && HasOwn(h, h.classes[h.objects[recv].ctor], c.key)
  {
    var ctor := h.objects[recv].ctor;
    ctor != c.owner && ctor in h.classes && HasOwn(h, h.classes[ctor], c.key)
  }

  /** The data property the getter installs (src/autobind.js:66-72). */
  function BoundSlot(boundFn: Value): Slot {
    Data(boundFn, false, true, true)
  }

  /** The getter of the autobound accessor, src/autobind.js:51-75, run with
      `this` = `recv`. */
  function Get(s: State, hasWeakMap: bool, c: Autobound, recv: ObjId): (r: Step)
    requires Valid(s) && recv in s.heap.objects && Callable(c.fn)
    ensures Valid(r.post) && SameShape(s.heap, r.post.heap)
    // read on the prototype itself: the original function, unbound; nothing changes
    ensures recv == c.target ==> r == Step(Ok(c.fn), s)
    // from any other receiver, the value calls the original function with `this` fixed to `recv`
    ensures recv != c.target && r.result.Ok? ==>
              forall thisArg :: Dispatch(r.result.value, thisArg) == Dispatch(c.fn, Ref(recv))
    // the only failure is the missing WeakMap on the super-call path, and it changes nothing
    ensures r.result.Err? ==>
              r == Step(Err(UnsupportedRuntime), s) && !hasWeakMap && recv != c.target && IsSuperCall(s.heap, c, recv)
    // super call: the receiver is left alone and the value is the one cached for (recv, fn)
    ensures recv != c.target && IsSuperCall(s.heap, c, recv) ==>
              r.post.heap == s.heap && (hasWeakMap ==> Cached(r.post, recv, c.fn) == Some(r.result.value))
    // common case: a new bound function, installed as a hidden own property of the receiver
    ensures recv != c.target && !IsSuperCall(s.heap, c, recv) ==>
              r.result == Ok(Bind(c.fn, recv, s.nextId)) && r.post.nextId == s.nextId + 1
              && Own(r.post.heap, recv, c.key) == Some(BoundSlot(Bind(c.fn, recv, s.nextId)))
    // the cache is only touched on the super-call path
    ensures !(recv != c.target && IsSuperCall(s.heap, c, recv)) ==> r.post.mapStore == s.mapStore
    // no property but `key` of the receiver changes
    ensures forall x: ObjId, k: Key {:trigger Own(r.post.heap, x, k)} :: (x, k) != (recv, c.key) ==> Own(r.post.heap, x, k) == Own(s.heap, x, k)
  {
    if recv == c.target then Step(Ok(c.fn), s)
    else if IsSuperCall(s.heap, c, recv) then
      var r := GetBoundSuper(s, hasWeakMap, recv, c.fn);
      assert r.result.Ok? ==> r.result.value == Bind(c.fn, recv, r.result.value.boundId) by {
        if r.result.Ok? {
          assert Cached(r.post, recv, c.fn) == Some(r.result.value);
          assert IsBinding(r.result.value, c.fn, recv);
        }
      }
      r
    else
      var boundFn := Bind(c.fn, recv, s.nextId);
      DefineOwnWellFormed(s.heap, recv, c.key, BoundSlot(boundFn));
      Step(Ok(boundFn), State(DefineOwn(s.heap, recv, c.key, BoundSlot(boundFn)), s.mapStore, s.nextId + 1))
  }

  /** The data property the setter installs (src/autobind.js:77-83). */
  function AssignedSlot(newValue: Value): Slot {
    Data(newValue, true, true, true)
  }

  /** The setter of the autobound accessor, src/autobind.js:76-84, run with
      `this` = `recv`: `key` becomes an enumerable, writable, configurable own
      data property of `recv` holding `newValue`; nothing else changes. */
  function Set(s: State, c: Autobound, recv: ObjId, newValue: Value): (r: State)
    requires Valid(s) && recv in s.heap.objects
    ensures Valid(r) && SameShape(s.heap, r.heap)
    ensures r.mapStore == s.mapStore && r.nextId == s.nextId
    ensures Own(r.heap, recv, c.key) == Some(AssignedSlot(newValue))
    ensures forall x: ObjId, k: Key {:trigger Own(r.heap, x, k)} :: (x, k) != (recv, c.key) ==> Own(r.heap, x, k) == Own(s.heap, x, k)
  {
    DefineOwnWellFormed(s.heap, recv, c.key, AssignedSlot(newValue));
    s.(heap := DefineOwn(s.heap, recv, c.key, AssignedSlot(newValue)))
  }

  /** Reading `key` from `holder` with receiver `recv` (`Reflect.get`; with
      `holder` an ancestor prototype this is `super.key` or
      `Ancestor.prototype.key` called on `recv`): an own or inherited data
      property gives its value, an autobound accessor runs its getter with
      `this` = `recv`, and a missing property gives `undefined`. */
  function ReadVia(s: State, hasWeakMap: bool, holder: ObjId, key: Key, recv: ObjId): (r: Step)
    requires Valid(s) && holder in s.heap.objects && recv in s.heap.objects
    ensures Valid(r.post) && SameShape(s.heap, r.post.heap)
    ensures forall x: ObjId, k: Key {:trigger Own(r.post.heap, x, k)} :: (x, k) != (recv, key) ==> Own(r.post.heap, x, k) == Own(s.heap, x, k)
  {
    match Lookup(s.heap, holder, key)
    case None => Step(Ok(Undefined), s)
    case Some(Data(v, _, _, _)) => Step(Ok(v), s)
    case Some(Accessor(c, _, _)) => Get(s, hasWeakMap, c, recv)
  }

  /** `obj.key`: a read that starts at the receiver itself. */
  function Read(s: State, hasWeakMap: bool, obj: ObjId, key: Key): (r: Step)
    requires Valid(s) && obj in s.heap.objects
    ensures Valid(r.post) && SameShape(s.heap, r.post.heap)
    // a data property, own or inherited (the bound function installed by an earlier read), is returned as it is
    ensures Lookup(s.heap, obj, key).Some? && Lookup(s.heap, obj, key).value.Data? ==>
              r == Step(Ok(Lookup(s.heap, obj, key).value.value), s)
    ensures Lookup(s.heap, obj, key).None? ==> r == Step(Ok(Undefined), s)
    ensures forall x: ObjId, k: Key {:trigger Own(r.post.heap, x, k)} :: (x, k) != (obj, key) ==> Own(r.post.heap, x, k) == Own(s.heap, x, k)
  {
    ReadVia(s, hasWeakMap, obj, key, obj)
  }

  /** The accessor a read of `key` from `holder` finds, if it finds one. */
  predicate FindsAccessor(s: State, holder: ObjId, key: Key, c: Autobound)
    requires Valid(s) && holder in s.heap.objects
  {
    Lookup(s.heap, holder, key).Some? && Lookup(s.heap, holder, key).value.Accessor?
    && Lookup(s.heap, holder, key).value.closure == c
  }

  /** Reading the accessor directly off the prototype it was defined on gives
      the original function, unbound, and changes nothing (src/autobind.js:54-56). */
  lemma ReadOnPrototype(s: State, hasWeakMap: bool, proto: ObjId, key: Key, c: Autobound)
    requires Valid(s) && proto in s.heap.objects
    requires FindsAccessor(s, proto, key, c) && c.target == proto
    ensures Read(s, hasWeakMap, proto, key) == Step(Ok(c.fn), s)
  {
  }

  /** The getter's common case (src/autobind.js:64-74), as one state change. */
  lemma GetInstallsBoundMethod(s: State, hasWeakMap: bool, c: Autobound, recv: ObjId, post: State)
    requires Valid(s) && recv in s.heap.objects && Callable(c.fn)
    requires recv != c.target && !IsSuperCall(s.heap, c, recv)
    requires post == State(DefineOwn(s.heap, recv, c.key, BoundSlot(Bind(c.fn, recv, s.nextId))), s.mapStore, s.nextId + 1)
    ensures Get(s, hasWeakMap, c, recv) == Step(Ok(Bind(c.fn, recv, s.nextId)), post)
  {
  }

  /** The common case (src/autobind.js:64-74): the read returns the original
      function newly bound to the receiver, installs it as the receiver's own
      non-enumerable, writable, configurable `key`, and changes nothing else. */
  lemma ReadInstallsBoundMethod(s: State, hasWeakMap: bool, holder: ObjId, key: Key, recv: ObjId, c: Autobound)
    requires Valid(s) && holder in s.heap.objects && recv in s.heap.objects
    requires FindsAccessor(s, holder, key, c) && recv != c.target && !IsSuperCall(s.heap, c, recv)
    ensures var boundFn := Bind(c.fn, recv, s.nextId);
            ReadVia(s, hasWeakMap, holder, key, recv)
              == Step(Ok(boundFn), State(DefineOwn(s.heap, recv, key, BoundSlot(boundFn)), s.mapStore, s.nextId + 1))
  {
  }

  /** The super-call case (src/autobind.js:60-62): the read is answered by
      `getBoundSuper` for the receiver and the original function. */
  lemma ReadResolvesSuperCall(s: State, hasWeakMap: bool, holder: ObjId, key: Key, recv: ObjId, c: Autobound)
    requires Valid(s) && holder in s.heap.objects && recv in s.heap.objects
    requires FindsAccessor(s, holder, key, c) && recv != c.target && IsSuperCall(s.heap, c, recv)
    ensures ReadVia(s, hasWeakMap, holder, key, recv) == GetBoundSuper(s, hasWeakMap, recv, c.fn)
  {
  }

  /** Reading `obj.key` twice gives the same result, and the second read changes
      nothing: the common case installed the bound function as an own property
      that the second read finds, the super-call case serves it from the cache,
      and every other case changed nothing in the first place. */
  lemma ReadIsStable(s: State, hasWeakMap: bool, obj: ObjId, key: Key)
    requires Valid(s) && obj in s.heap.objects
    ensures Valid(Read(s, hasWeakMap, obj, key).post)
    ensures obj in Read(s, hasWeakMap, obj, key).post.heap.objects
    ensures var first := Read(s, hasWeakMap, obj, key);
            Read(first.post, hasWeakMap, obj, key) == Step(first.result, first.post)
  {
    var first := Read(s, hasWeakMap, obj, key);
    match Lookup(s.heap, obj, key)
    case None =>
    case Some(Data(v, _, _, _)) =>
    case Some(Accessor(c, _, _)) =>
      assert first == Get(s, hasWeakMap, c, obj);
      if obj == c.target {
      } else if IsSuperCall(s.heap, c, obj) {
        assert first == GetBoundSuper(s, hasWeakMap, obj, c.fn);
        GetBoundSuperIsMemoized(s, hasWeakMap, obj, c.fn);
        assert first.post.heap == s.heap;
        assert Read(first.post, hasWeakMap, obj, key) == Get(first.post, hasWeakMap, c, obj);
      } else {
        var boundFn := Bind(c.fn, obj, s.nextId);
        LookupDefinedOwn(s.heap, obj, key, BoundSlot(boundFn));
        assert first.post.heap == DefineOwn(s.heap, obj, key, BoundSlot(boundFn));
        assert Lookup(first.post.heap, obj, key) == Some(BoundSlot(boundFn));
      }
  }

  /** Reading `obj.key` binds the original function to `obj`, whichever path the
      getter takes: calling the value, detached or not, runs the original
      function with `this` = `obj`. */
  lemma ReadBindsReceiver(s: State, hasWeakMap: bool, obj: ObjId, key: Key, c: Autobound, thisArg: Value)
    requires Valid(s) && obj in s.heap.objects
    requires Lookup(s.heap, obj, key).Some? && Lookup(s.heap, obj, key).value.Accessor?
    requires c == Lookup(s.heap, obj, key).value.closure && obj != c.target
    requires Read(s, hasWeakMap, obj, key).result.Ok?
    ensures Dispatch(Read(s, hasWeakMap, obj, key).result.value, thisArg) == Dispatch(c.fn, Ref(obj))
  {
  }

  /** After the setter ran on `recv`, reading `recv.key` gives exactly the value
      assigned, and `key` is among `recv`'s enumerable own keys. */
  lemma ReadAfterSet(s: State, hasWeakMap: bool, c: Autobound, recv: ObjId, newValue: Value)
    requires Valid(s) && recv in s.heap.objects
    ensures var s' := Set(s, c, recv, newValue);
            Read(s', hasWeakMap, recv, c.key) == Step(Ok(newValue), s')
            && c.key in EnumerableKeys(s'.heap, recv)
  {
    LookupDefinedOwn(s.heap, recv, c.key, AssignedSlot(newValue));
  }

  /** A value bound by a plain read is not enumerable: the common case leaves
      `key` out of `obj`'s enumerable own keys. */
  lemma BoundByReadIsHidden(s: State, hasWeakMap: bool, obj: ObjId, key: Key)
    requires Valid(s) && obj in s.heap.objects
    requires Lookup(s.heap, obj, key).Some? && Lookup(s.heap, obj, key).value.Accessor?
    requires var c := Lookup(s.heap, obj, key).value.closure;
             obj != c.target && !IsSuperCall(s.heap, c, obj)
    ensures obj in Read(s, hasWeakMap, obj, key).post.heap.objects
    ensures key !in EnumerableKeys(Read(s, hasWeakMap, obj, key).post.heap, obj)
  {
  }

  /** A read of `obj.key` changes nothing that a lookup of another key finds,
      nor what a lookup of `key` finds from an object that does not inherit
      from `obj`: binding the method of one instance leaves every other
      instance's method alone. */
  lemma ReadLeavesOtherReadsAlone(s: State, hasWeakMap: bool, obj: ObjId, key: Key, x: ObjId, k: Key)
    requires Valid(s) && obj in s.heap.objects && x in s.heap.objects
    requires k != key || !OnChain(s.heap, x, obj)
    ensures Valid(Read(s, hasWeakMap, obj, key).post)
    ensures x in Read(s, hasWeakMap, obj, key).post.heap.objects
    ensures Lookup(Read(s, hasWeakMap, obj, key).post.heap, x, k) == Lookup(s.heap, x, k)
  {
    match Lookup(s.heap, obj, key)
    case None =>
    case Some(Data(v, _, _, _)) =>
    case Some(Accessor(c, _, _)) =>
      if obj != c.target && !IsSuperCall(s.heap, c, obj) {
        LookupAfterDefineOwn(s.heap, obj, key, BoundSlot(Bind(c.fn, obj, s.nextId)), x, k);
      }
  }

  /** Calling `getBoundSuper` again for the same pair returns the identical
      function and changes nothing. */
  lemma GetBoundSuperIsMemoized(s: State, hasWeakMap: bool, obj: ObjId, fn: Value)
    requires Callable(fn)
    ensures var first := GetBoundSuper(s, hasWeakMap, obj, fn);
            GetBoundSuper(first.post, hasWeakMap, obj, fn) == first
  {
  }
}
