/** The autobind mechanism as the program runs it: one object holding the heap,
    the module-level `mapStore` and the identity counter, whose methods update
    them in place the way src/autobind.js does. Each method is proved to end in
    exactly the state (and with exactly the result) of the corresponding
    transition of module Autobind, so every lemma proved there holds of it, and
    keeps the identity invariant of module Identities, so every binding it
    creates is a new object. */
module AutobindRuntime {
  import opened Values
  import opened JsObjects
  import opened Autobind
  import opened Identities

  class Runtime {
    /** `typeof WeakMap !== 'undefined'`: fixed for the lifetime of the program. */
    const hasWeakMap: bool
    var heap: Heap
    /** `let mapStore;` (src/autobind.js:13): `None` until first allocated. */
    var mapStore: Option<MapStore>
    /** The identity the next bound function object gets. */
    var nextId: nat

    /** The current state, as the transitions of module Autobind see it. */
    function Snapshot(): Autobind.State
      reads this
    {
      Autobind.State(heap, mapStore, nextId)
    }

    ghost predicate Valid()
      reads this
    {
      Autobind.Valid(Snapshot()) && Fresh(Snapshot())
    }

    /** A program whose classes and objects are `heap`, before any autobound
        property has been read: no `mapStore` yet, and every bound function
        object it holds has an identity below `firstId` (ordinary functions
        have identities of their own, which the counter does not bound). */
    constructor (hasWeakMap: bool, heap: Heap, firstId: nat)
      requires WellFormed(heap) && HeapBelow(heap, firstId)
      ensures Valid()
      ensures this.hasWeakMap == hasWeakMap && this.heap == heap && mapStore == None && nextId == firstId
    {
      this.hasWeakMap := hasWeakMap;
      this.heap := heap;
      mapStore := None;
      nextId := firstId;
    }

    /** `Object.defineProperty(o, key, slot)`. */
    method DefineProperty(o: ObjId, key: Key, slot: Slot)
      requires Valid() && o in heap.objects && SlotOk(key, slot) && SlotBelow(slot, nextId)
      modifies this
      ensures Valid()
      ensures heap == DefineOwn(old(heap), o, key, slot)
      ensures mapStore == old(mapStore) && nextId == old(nextId)
    {
      DefineKeepsFresh(Snapshot(), o, key, slot);
      DefineOwnWellFormed(heap, o, key, slot);
      heap := DefineOwn(heap, o, key, slot);
    }

    /** getBoundSuper(obj, fn), src/autobind.js:15-38: the `WeakMap` check, the
        lazy allocation of `mapStore` and of `obj`'s inner map, and the binding
        stored on the first call for (`obj`, `fn`). */
    method GetBoundSuper(obj: ObjId, fn: Value) returns (r: Result<Value>)
      requires Valid() && Callable(fn) && IdBound(fn) <= nextId
      modifies this
      ensures Valid()
      ensures Step(r, Snapshot()) == Autobind.GetBoundSuper(old(Snapshot()), hasWeakMap, obj, fn)
      ensures r.Ok? ==> IdBound(r.value) <= nextId
    {
      ghost var s := Snapshot();
      GetBoundSuperKeepsFresh(s, hasWeakMap, obj, fn);
      if !hasWeakMap {
        return Err(UnsupportedRuntime);
      }
      if mapStore.None? {
        mapStore := Some(map[]);
      }
      if obj !in mapStore.value {
        mapStore := Some(mapStore.value[obj := map[]]);
      }
      var superStore := mapStore.value[obj];
      if fn !in superStore {
        superStore := superStore[fn := Bind(fn, obj, nextId)];
        nextId := nextId + 1;
        mapStore := Some(mapStore.value[obj := superStore]);
      }
      r := Ok(mapStore.value[obj][fn]);
      assert Step(r, Snapshot()) == Autobind.GetBoundSuper(s, hasWeakMap, obj, fn);
    }

    /** The decorator applied to member `key` of the prototype `target` whose
        descriptor is `desc` (src/autobind.js:88-90 with handleDescriptor,
        src/autobind.js:40-86): a function is replaced by the autobound
        accessor; anything else is refused and nothing changes. */
    method Decorate(target: ObjId, key: Key, desc: Slot) returns (r: Result<Slot>)
      requires Valid() && target in heap.objects && SlotBelow(desc, nextId)
      modifies this
      ensures Valid()
      ensures r == HandleDescriptor(old(heap), target, key, desc)
      ensures r.Ok? ==> heap == DefineOwn(old(heap), target, key, r.value)
      ensures r.Err? ==> heap == old(heap)
      ensures mapStore == old(mapStore) && nextId == old(nextId)
    {
      r := HandleDescriptor(heap, target, key, desc);
      HandleDescriptorBelow(heap, target, key, desc, nextId);
      if r.Ok? {
        DefineProperty(target, key, r.value);
      }
    }

    /** The getter of the accessor `c`, src/autobind.js:51-75, with `this` = `recv`. */
    method Get(c: Autobound, recv: ObjId) returns (r: Result<Value>)
      requires Valid() && recv in heap.objects && Callable(c.fn) && IdBound(c.fn) <= nextId
      modifies this
      ensures Valid()
      ensures Step(r, Snapshot()) == Autobind.Get(old(Snapshot()), hasWeakMap, c, recv)
      ensures r.Ok? ==> IdBound(r.value) <= nextId
    {
      ghost var s := Snapshot();
      GetKeepsFresh(s, hasWeakMap, c, recv);
      if recv == c.target {
        r := Ok(c.fn);
      } else if IsSuperCall(heap, c, recv) {
        r := GetBoundSuper(recv, c.fn);
        assert Autobind.Get(s, hasWeakMap, c, recv) == Autobind.GetBoundSuper(s, hasWeakMap, recv, c.fn);
      } else {
        var boundFn := Bind(c.fn, recv, nextId);
        BindIdBound(c.fn, recv, nextId);
        nextId := nextId + 1;
        FreshLater(s, nextId);
        DefineProperty(recv, c.key, BoundSlot(boundFn));
        r := Ok(boundFn);
        GetInstallsBoundMethod(s, hasWeakMap, c, recv, Snapshot());
      }
    }

    /** The setter of the accessor `c`, src/autobind.js:76-84, with `this` = `recv`. */
    method Set(c: Autobound, recv: ObjId, newValue: Value)
      requires Valid() && recv in heap.objects && IdBound(newValue) <= nextId
      modifies this
      ensures Valid()
      ensures Snapshot() == Autobind.Set(old(Snapshot()), c, recv, newValue)
    {
      DefineProperty(recv, c.key, AssignedSlot(newValue));
    }

    /** A read of `key` from `holder` with receiver `recv`. */
    method ReadVia(holder: ObjId, key: Key, recv: ObjId) returns (r: Result<Value>)
      requires Valid() && holder in heap.objects && recv in heap.objects
      modifies this
      ensures Valid()
      ensures Step(r, Snapshot()) == Autobind.ReadVia(old(Snapshot()), hasWeakMap, holder, key, recv)
      ensures r.Ok? ==> IdBound(r.value) <= nextId
    {
      LookupBelow(heap, holder, key, nextId);
      match Lookup(heap, holder, key)
      case None =>
        r := Ok(Undefined);
      case Some(Data(v, _, _, _)) =>
        r := Ok(v);
      case Some(Accessor(c, _, _)) =>
        r := Get(c, recv);
    }

    /** `obj.key`. */
    method Read(obj: ObjId, key: Key) returns (r: Result<Value>)
      requires Valid() && obj in heap.objects
      modifies this
      ensures Valid()
      ensures Step(r, Snapshot()) == Autobind.Read(old(Snapshot()), hasWeakMap, obj, key)
      ensures r.Ok? ==> IdBound(r.value) <= nextId
    {
      r := ReadVia(obj, key, obj);
    }
  }
}
