/** The part of the host language's object model that autobinding touches:
    objects with own-property tables, the class an object's `constructor` names,
    each class's `prototype` object, and property lookup along the prototype chain. */
module JsObjects {
  import opened Values

  /** Class identities: the value of some object's `constructor` property. */
  type ClassId = nat

  /** The environment captured by the get/set pair that `handleDescriptor`
      returns (src/autobind.js:40-86): the object the accessor is defined on
      (`target`), the property key, the decorated function (`fn`) and the class
      `target.constructor` named when the decorator ran (`owner`). */
  datatype Autobound = Autobound(target: ObjId, key: Key, fn: Value, owner: ClassId)

  /** An own property: a data property with its attributes, or an accessor
      property whose getter and setter are those of an autobound closure. */
  datatype Slot =
    | Data(value: Value, enumerable: bool, writable: bool, configurable: bool)
    | Accessor(closure: Autobound, enumerable: bool, configurable: bool)

  /** An object: its own properties, the class `obj.constructor` evaluates to,
      and its prototype (`None` at the end of the chain). */
  datatype Object = Object(own: map<Key, Slot>, ctor: ClassId, proto: Option<ObjId>)

  /** All objects, and for each class the object `C.prototype` names. */
  datatype Heap = Heap(objects: map<ObjId, Object>, classes: map<ClassId, ObjId>)

  /** A slot held under `key` is well formed when an accessor in it closes over
      a function and was made for that same key. */
  predicate SlotOk(key: Key, slot: Slot) {
    slot.Accessor? ==> Callable(slot.closure.fn) && slot.closure.key == key
  }

  /** Every prototype chain ends in existing objects, and every accessor closes
      over a function and sits under the key it was made for. Objects are
      numbered so that a prototype has a smaller number than the objects that
      inherit from it; this convention rules out cycles in the chain. */
  ghost predicate WellFormed(h: Heap) {
    (forall o :: o in h.objects && h.objects[o].proto.Some? ==>
          h.objects[o].proto.value < o && h.objects[o].proto.value in h.objects)
    && (forall o: ObjId, k: Key :: Own(h, o, k).Some? ==> SlotOk(k, Own(h, o, k).value))
  }

  /** The own property `key` of `o`, if `o` exists and has one. */
  function Own(h: Heap, o: ObjId, key: Key): Option<Slot> {
    if o in h.objects && key in h.objects[o].own then Some(h.objects[o].own[key]) else None
  }

  /** `obj.hasOwnProperty(key)`. */
  predicate HasOwn(h: Heap, o: ObjId, key: Key) {
    Own(h, o, key).Some?
  }

  /** `p` is `o` or one of its prototypes. */
  predicate OnChain(h: Heap, o: ObjId, p: ObjId)
    requires WellFormed(h) && o in h.objects
    decreases o
  {
    o == p || (h.objects[o].proto.Some? && OnChain(h, h.objects[o].proto.value, p))
  }

  /** The property that a read of `key` starting at `o` finds: the first own
      slot for `key` on `o` or along its prototype chain. */
  function Lookup(h: Heap, o: ObjId, key: Key): (r: Option<Slot>)
    requires WellFormed(h) && o in h.objects
    ensures r.Some? ==> SlotOk(key, r.value)
    ensures HasOwn(h, o, key) ==> r == Own(h, o, key)
    decreases o
  {
    if HasOwn(h, o, key) then Own(h, o, key)
    else match h.objects[o].proto
      case None => None
      case Some(p) => Lookup(h, p, key)
  }

  /** Same objects, same classes, same constructors and prototypes: only own
      property tables may differ. */
  predicate SameShape(h: Heap, h': Heap) {
    h'.classes == h.classes && h'.objects.Keys == h.objects.Keys
    && forall o :: o in h.objects ==>
         h'.objects[o].ctor == h.objects[o].ctor && h'.objects[o].proto == h.objects[o].proto
  }

  /** `Object.defineProperty(o, key, slot)`: `o` gets `slot` as its own property
      `key`, replacing any earlier one; nothing else changes. */
  function DefineOwn(h: Heap, o: ObjId, key: Key, slot: Slot): (h': Heap)
    requires o in h.objects
    ensures SameShape(h, h')
    ensures Own(h', o, key) == Some(slot)
    ensures forall x: ObjId, k: Key {:trigger Own(h', x, k)} :: (x, k) != (o, key) ==> Own(h', x, k) == Own(h, x, k)
  {
    var obj := h.objects[o];
    var h' := h.(objects := h.objects[o := obj.(own := obj.own[key := slot])]);
    assert forall x: ObjId, k: Key :: (x, k) != (o, key) ==> Own(h', x, k) == Own(h, x, k) by {
      forall x: ObjId, k: Key | (x, k) != (o, key) ensures Own(h', x, k) == Own(h, x, k) {
        if x != o && x in h.objects { assert h'.objects[x] == h.objects[x]; }
      }
    }
    h'
  }

  /** Defining a well-formed property keeps the heap well formed. */
  lemma DefineOwnWellFormed(h: Heap, o: ObjId, key: Key, slot: Slot)
    requires WellFormed(h) && SlotOk(key, slot) && o in h.objects
    ensures WellFormed(DefineOwn(h, o, key, slot))
  {
    var h' := DefineOwn(h, o, key, slot);
    forall x | x in h'.objects
      ensures h'.objects[x].proto.Some? ==> h'.objects[x].proto.value < x && h'.objects[x].proto.value in h'.objects
    {
      assert x in h.objects;
    }
    forall x: ObjId, k: Key | Own(h', x, k).Some? ensures SlotOk(k, Own(h', x, k).value) {
      if (x, k) != (o, key) {
        assert Own(h', x, k) == Own(h, x, k);
      }
    }
  }

  /** The keys of `o`'s own enumerable properties (what `Object.keys` lists). */
  function EnumerableKeys(h: Heap, o: ObjId): set<Key>
    requires o in h.objects
  {
    set k | k in h.objects[o].own && h.objects[o].own[k].enumerable
  }

  /** Defining `key` on `o` changes nothing that a lookup of another key finds,
      nor what a lookup of `key` finds from an object that does not inherit
      from `o`. */
  lemma {:induction false} LookupAfterDefineOwn(h: Heap, o: ObjId, key: Key, slot: Slot, x: ObjId, k: Key)
    requires WellFormed(h) && SlotOk(key, slot) && o in h.objects && x in h.objects
    requires k != key || !OnChain(h, x, o)
    ensures WellFormed(DefineOwn(h, o, key, slot))
    ensures Lookup(DefineOwn(h, o, key, slot), x, k) == Lookup(h, x, k)
    decreases x
  {
    DefineOwnWellFormed(h, o, key, slot);
    var h' := DefineOwn(h, o, key, slot);
    assert Own(h', x, k) == Own(h, x, k);
    if k !in h.objects[x].own {
      match h.objects[x].proto
      case None =>
      case Some(p) =>
        LookupAfterDefineOwn(h, o, key, slot, p, k);
    }
  }

  /** A read of `key` on `o` right after `o` got its own `key` finds that property. */
  lemma LookupDefinedOwn(h: Heap, o: ObjId, key: Key, slot: Slot)
    requires WellFormed(h) && SlotOk(key, slot) && o in h.objects
    ensures WellFormed(DefineOwn(h, o, key, slot))
    ensures Lookup(DefineOwn(h, o, key, slot), o, key) == Some(slot)
  {
    DefineOwnWellFormed(h, o, key, slot);
  }
}
