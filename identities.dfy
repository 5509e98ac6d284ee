/** Identities of bound function objects. `bind` makes a new function object on
    every call (src/autobind.js:5, 34, 64), so a binding the getter or
    `getBoundSuper` creates is a value the program has never held. The counter
    of module Autobind gives that once every bound-function identity held in the state was
    drawn from it earlier (ordinary functions have identities of their own,
    and a bound function never equals one): this module states that invariant (`Fresh`), proves
    that every operation keeps it, and proves that the bindings created are
    new, that is, differ from every value held before. */
module Identities {
  import opened Values
  import opened JsObjects
  import opened Autobind

  /** One more than the largest bound-function identity inside `v`; 0 if there is none. */
  function IdBound(v: Value): (r: nat)
    ensures v.Bound? ==> v.boundId < r && IdBound(v.target) <= r
    ensures !v.Bound? ==> r == 0
  {
    match v
    case Bound(target, _, id) => if IdBound(target) > id then IdBound(target) else id + 1
    case _ => 0
  }

  /** The bound function object `Bind` makes with identity `id` is the newest one inside it. */
  lemma BindIdBound(fn: Value, context: ObjId, id: nat)
    requires Callable(fn) && IdBound(fn) <= id
    ensures IdBound(Bind(fn, context, id)) == id + 1
  {
  }

  /** Every bound-function identity inside `slot` (its value, or its accessor's function) is below `n`. */
  predicate SlotBelow(slot: Slot, n: nat) {
    match slot
    case Data(v, _, _, _) => IdBound(v) <= n
    case Accessor(c, _, _) => IdBound(c.fn) <= n
  }

  /** Every bound-function identity held in a property of `h` is below `n`. */
  ghost predicate HeapBelow(h: Heap, n: nat) {
    forall o: ObjId, k: Key :: Own(h, o, k).Some? ==> SlotBelow(Own(h, o, k).value, n)
  }

  /** Every bound-function identity held in `s` (in properties and on both
      sides of every cache entry) was drawn from the counter before. Ordinary
      functions carry no such identity. */
  ghost predicate Fresh(s: State) {
    HeapBelow(s.heap, s.nextId)
    && forall o: ObjId, f: Value :: Cached(s, o, f).Some? ==>
         IdBound(f) <= s.nextId && IdBound(Cached(s, o, f).value) <= s.nextId
  }

  /** The slot `slot` holds the value `v`. */
  predicate SlotHolds(slot: Slot, v: Value) {
    match slot
    case Data(w, _, _, _) => w == v
    case Accessor(c, _, _) => c.fn == v
  }

  /** No property, accessor and cache entry of `s` holds `v`: `v` is a new object. */
  ghost predicate Unseen(s: State, v: Value) {
    (forall o: ObjId, k: Key :: Own(s.heap, o, k).Some? ==> !SlotHolds(Own(s.heap, o, k).value, v))
    && forall o: ObjId, f: Value :: Cached(s, o, f).Some? ==> f != v && Cached(s, o, f).value != v
  }

  /** A value carrying a bound-function identity the counter has not handed out yet is held nowhere. */
  lemma NewIdIsUnseen(s: State, v: Value)
    requires Fresh(s) && s.nextId < IdBound(v)
    ensures Unseen(s, v)
  {
    forall o: ObjId, k: Key | Own(s.heap, o, k).Some?
      ensures !SlotHolds(Own(s.heap, o, k).value, v)
    {
      assert SlotBelow(Own(s.heap, o, k).value, s.nextId);
    }
  }

  /** Drawing more identities keeps the invariant. */
  lemma FreshLater(s: State, n: nat)
    requires Fresh(s) && s.nextId <= n
    ensures Fresh(s.(nextId := n))
  {
    var s' := s.(nextId := n);
    forall o: ObjId, k: Key | Own(s'.heap, o, k).Some? ensures SlotBelow(Own(s'.heap, o, k).value, n) {
      assert SlotBelow(Own(s.heap, o, k).value, s.nextId);
    }
    forall o: ObjId, f: Value | Cached(s', o, f).Some?
      ensures IdBound(f) <= n && IdBound(Cached(s', o, f).value) <= n
    {
      assert Cached(s', o, f) == Cached(s, o, f);
    }
  }

  /** Defining a slot whose bound-function identities are below `n` keeps every such identity in the heap below `n`. */
  lemma DefineOwnBelow(h: Heap, o: ObjId, key: Key, slot: Slot, n: nat)
    requires o in h.objects && HeapBelow(h, n) && SlotBelow(slot, n)
    ensures HeapBelow(DefineOwn(h, o, key, slot), n)
  {
    var h' := DefineOwn(h, o, key, slot);
    forall x: ObjId, k: Key | Own(h', x, k).Some? ensures SlotBelow(Own(h', x, k).value, n) {
      if (x, k) != (o, key) {
        assert Own(h', x, k) == Own(h, x, k);
      }
    }
  }

  /** Whatever a read finds along the prototype chain holds bound-function identities below `n` only. */
  lemma {:induction false} LookupBelow(h: Heap, o: ObjId, key: Key, n: nat)
    requires WellFormed(h) && HeapBelow(h, n) && o in h.objects
    ensures Lookup(h, o, key).Some? ==> SlotBelow(Lookup(h, o, key).value, n)
    decreases o
  {
    if !HasOwn(h, o, key) {
      match h.objects[o].proto
      case None =>
      case Some(p) => LookupBelow(h, p, key, n);
    }
  }

  /** The accessor the decorator makes closes over the decorated value, so it
      holds no bound-function identity the descriptor did not hold. */
  lemma HandleDescriptorBelow(h: Heap, target: ObjId, key: Key, desc: Slot, n: nat)
    requires target in h.objects && SlotBelow(desc, n)
    ensures HandleDescriptor(h, target, key, desc).Ok? ==> SlotBelow(HandleDescriptor(h, target, key, desc).value, n)
  {
  }

  /** getBoundSuper keeps the invariant, and what it returns is held in the cache afterwards. */
  lemma GetBoundSuperKeepsFresh(s: State, hasWeakMap: bool, obj: ObjId, fn: Value)
    requires Callable(fn) && Fresh(s) && IdBound(fn) <= s.nextId
    ensures var r := GetBoundSuper(s, hasWeakMap, obj, fn);
            Fresh(r.post) && (r.result.Ok? ==> IdBound(r.result.value) <= r.post.nextId)
  {
    var r := GetBoundSuper(s, hasWeakMap, obj, fn);
    if hasWeakMap {
      if Cached(s, obj, fn).None? {
        BindIdBound(fn, obj, s.nextId);
      }
      forall o: ObjId, k: Key | Own(r.post.heap, o, k).Some? ensures SlotBelow(Own(r.post.heap, o, k).value, r.post.nextId) {
        assert SlotBelow(Own(s.heap, o, k).value, s.nextId);
      }
      forall o: ObjId, f: Value | Cached(r.post, o, f).Some?
        ensures IdBound(f) <= r.post.nextId && IdBound(Cached(r.post, o, f).value) <= r.post.nextId
      {
        if (o, f) != (obj, fn) {
          assert Cached(r.post, o, f) == Cached(s, o, f);
        }
      }
    }
  }

  /** The first getBoundSuper for a pair returns a new bound function object. */
  lemma GetBoundSuperMakesNewObject(s: State, obj: ObjId, fn: Value)
    requires Callable(fn) && Fresh(s) && IdBound(fn) <= s.nextId && Cached(s, obj, fn).None?
    ensures Unseen(s, GetBoundSuper(s, true, obj, fn).result.value)
  {
    BindIdBound(fn, obj, s.nextId);
    NewIdIsUnseen(s, Bind(fn, obj, s.nextId));
  }

  /** `defineProperty` with a slot whose bound-function identities were already drawn keeps the invariant. */
  lemma DefineKeepsFresh(s: State, o: ObjId, key: Key, slot: Slot)
    requires Fresh(s) && o in s.heap.objects && SlotBelow(slot, s.nextId)
    ensures Fresh(s.(heap := DefineOwn(s.heap, o, key, slot)))
  {
    DefineOwnBelow(s.heap, o, key, slot, s.nextId);
    var post := s.(heap := DefineOwn(s.heap, o, key, slot));
    forall x: ObjId, f: Value | Cached(post, x, f).Some?
      ensures IdBound(f) <= post.nextId && IdBound(Cached(post, x, f).value) <= post.nextId
    {
      assert Cached(post, x, f) == Cached(s, x, f);
    }
  }

  /** Drawing the counter's next identity for a binding and installing it keeps the invariant. */
  lemma InstallKeepsFresh(s: State, recv: ObjId, key: Key, boundFn: Value, post: State)
    requires Fresh(s) && recv in s.heap.objects && IdBound(boundFn) == s.nextId + 1
    requires post == State(DefineOwn(s.heap, recv, key, BoundSlot(boundFn)), s.mapStore, s.nextId + 1)
    ensures Fresh(post)
  {
    FreshLater(s, s.nextId + 1);
    DefineKeepsFresh(s.(nextId := s.nextId + 1), recv, key, BoundSlot(boundFn));
  }

  /** The getter keeps the invariant, and the value it returns carries only bound-function identities already drawn. */
  lemma GetKeepsFresh(s: State, hasWeakMap: bool, c: Autobound, recv: ObjId)
    requires Valid(s) && Fresh(s) && recv in s.heap.objects && Callable(c.fn) && IdBound(c.fn) <= s.nextId
    ensures var r := Get(s, hasWeakMap, c, recv);
            Fresh(r.post) && (r.result.Ok? ==> IdBound(r.result.value) <= r.post.nextId)
  {
    if recv != c.target {
      if IsSuperCall(s.heap, c, recv) {
        GetBoundSuperKeepsFresh(s, hasWeakMap, recv, c.fn);
      } else {
        var boundFn := Bind(c.fn, recv, s.nextId);
        BindIdBound(c.fn, recv, s.nextId);
        var post := State(DefineOwn(s.heap, recv, c.key, BoundSlot(boundFn)), s.mapStore, s.nextId + 1);
        GetInstallsBoundMethod(s, hasWeakMap, c, recv, post);
        InstallKeepsFresh(s, recv, c.key, boundFn, post);
      }
    }
  }

  /** The getter's common case returns a new bound function object: it differs from
      every value held anywhere before the read, so `obj.m === obj.x` is false
      for every other property `x`. */
  lemma GetMakesNewObject(s: State, hasWeakMap: bool, c: Autobound, recv: ObjId)
    requires Valid(s) && Fresh(s) && recv in s.heap.objects && Callable(c.fn) && IdBound(c.fn) <= s.nextId
    requires recv != c.target && !IsSuperCall(s.heap, c, recv)
    ensures Unseen(s, Get(s, hasWeakMap, c, recv).result.value)
  {
    BindIdBound(c.fn, recv, s.nextId);
    NewIdIsUnseen(s, Bind(c.fn, recv, s.nextId));
  }

  /** A read keeps the invariant, and the value it returns carries only bound-function identities already drawn. */
  lemma ReadViaKeepsFresh(s: State, hasWeakMap: bool, holder: ObjId, key: Key, recv: ObjId)
    requires Valid(s) && Fresh(s) && holder in s.heap.objects && recv in s.heap.objects
    ensures var r := ReadVia(s, hasWeakMap, holder, key, recv);
            Fresh(r.post) && (r.result.Ok? ==> IdBound(r.result.value) <= r.post.nextId)
  {
    LookupBelow(s.heap, holder, key, s.nextId);
    match Lookup(s.heap, holder, key)
    case None =>
    case Some(Data(v, _, _, _)) =>
    case Some(Accessor(c, _, _)) =>
      GetKeepsFresh(s, hasWeakMap, c, recv);
  }

  /** A plain read of `obj.key` that binds the method returns a value different
      from every value the program held before. */
  lemma ReadBindsNewObject(s: State, hasWeakMap: bool, obj: ObjId, key: Key)
    requires Valid(s) && Fresh(s) && obj in s.heap.objects
    requires Lookup(s.heap, obj, key).Some? && Lookup(s.heap, obj, key).value.Accessor?
    requires var c := Lookup(s.heap, obj, key).value.closure;
             obj != c.target && !IsSuperCall(s.heap, c, obj)
    ensures Read(s, hasWeakMap, obj, key).result.Ok?
    ensures Unseen(s, Read(s, hasWeakMap, obj, key).result.value)
  {
    LookupBelow(s.heap, obj, key, s.nextId);
    GetMakesNewObject(s, hasWeakMap, Lookup(s.heap, obj, key).value.closure, obj);
  }

  /** The setter keeps the invariant when the value assigned is one the program holds. */
  lemma SetKeepsFresh(s: State, c: Autobound, recv: ObjId, newValue: Value)
    requires Valid(s) && Fresh(s) && recv in s.heap.objects && IdBound(newValue) <= s.nextId
    ensures Fresh(Set(s, c, recv, newValue))
  {
    DefineKeepsFresh(s, recv, c.key, AssignedSlot(newValue));
  }
}
