/** Class hierarchies run through the autobind semantics: two instances of one
    class, the super-call pattern the getter's middle branch exists for, and
    the three-level hierarchy that branch's test does not recognise. Each is
    stated for every heap that contains the hierarchy. */
module Scenarios {
  import opened Values
  import opened JsObjects
  import opened Autobind

  /** Prototype `p` carries the accessor that decorating method `key` (the
      function `fn`) of class `owner` with prototype `p` installs. */
  predicate DecoratedAt(h: Heap, p: ObjId, key: Key, fn: Value, owner: ClassId) {
    Callable(fn) && Own(h, p, key).Some? && Own(h, p, key).value.Accessor?
    && Own(h, p, key).value.closure == Autobound(p, key, fn, owner)
  }

  /** `o` is an instance of class `cls`, made by `new cls()`, that has no own `key` yet. */
  predicate NewInstance(h: Heap, o: ObjId, cls: ClassId, key: Key) {
    o in h.objects && cls in h.classes
    && h.objects[o].ctor == cls && h.objects[o].proto == Some(h.classes[cls])
    && !HasOwn(h, o, key)
  }

  /** `class P { @autobind greet() {...} }` with two instances `p1` and `p2`:
      `p1.greet` and `p2.greet` are different functions, each calling the
      method with `this` fixed to its own instance (also when detached, as in
      `const f = p1.greet; f()`), and binding `p1`'s leaves `p2` untouched.
      `P.prototype.greet` is still the original function. */
  lemma TwoInstancesScenario(s: State, hasWeakMap: bool, cls: ClassId, key: Key, fn: Value, p1: ObjId, p2: ObjId)
    requires Valid(s) && p1 != p2
    requires NewInstance(s.heap, p1, cls, key) && NewInstance(s.heap, p2, cls, key)
    requires DecoratedAt(s.heap, s.heap.classes[cls], key, fn, cls)
    ensures var r1 := Read(s, hasWeakMap, p1, key);
            var r2 := Read(r1.post, hasWeakMap, p2, key);
            var onPrototype := Read(r2.post, hasWeakMap, s.heap.classes[cls], key);
            r1.result.Ok? && r2.result.Ok? && r1.result != r2.result
            && (forall thisArg :: Dispatch(r1.result.value, thisArg) == Dispatch(fn, Ref(p1)))
            && (forall thisArg :: Dispatch(r2.result.value, thisArg) == Dispatch(fn, Ref(p2)))
            && !HasOwn(r1.post.heap, p2, key)
            && onPrototype == Step(Ok(fn), r2.post)
  {
    var proto := s.heap.classes[cls];
    var c := Autobound(proto, key, fn, cls);
    assert p1 != proto && p2 != proto;
    assert FindsAccessor(s, p1, key, c) by {
      assert Lookup(s.heap, p1, key) == Lookup(s.heap, proto, key);
    }
    ReadInstallsBoundMethod(s, hasWeakMap, p1, key, p1, c);
    var r1 := Read(s, hasWeakMap, p1, key);
    var h1 := r1.post.heap;
    assert Own(h1, p2, key) == None && Own(h1, proto, key) == Own(s.heap, proto, key);
    assert FindsAccessor(r1.post, p2, key, c) by {
      assert Lookup(h1, p2, key) == Lookup(h1, proto, key);
    }
    assert !IsSuperCall(h1, c, p2);
    ReadInstallsBoundMethod(r1.post, hasWeakMap, p2, key, p2, c);
    var r2 := Read(r1.post, hasWeakMap, p2, key);
    assert Own(r2.post.heap, proto, key) == Own(s.heap, proto, key);
    assert FindsAccessor(r2.post, proto, key, c);
    ReadOnPrototype(r2.post, hasWeakMap, proto, key, c);
  }

  /** The super-call pattern: `class A { @autobind m() {...} }`,
      `class B extends A { @autobind m() { super.m(); } }` and `b = new B()`.
      `b.m()` runs B's method bound to `b`; inside it `super.m()` (a read of `m`
      from `A.prototype` with receiver `b`) gives A's method bound to `b` and
      leaves `b`'s properties as they were; the next `b.m()` still runs B's
      method, and the next `super.m()` gets the same bound function from the cache. */
  lemma SuperCallScenario(s: State, key: Key, clsA: ClassId, clsB: ClassId, fnA: Value, fnB: Value, b: ObjId)
    requires Valid(s) && clsA != clsB && clsA in s.heap.classes
    requires NewInstance(s.heap, b, clsB, key)
    requires var protoB := s.heap.classes[clsB];
             s.heap.objects[protoB].proto == Some(s.heap.classes[clsA])
             && DecoratedAt(s.heap, protoB, key, fnB, clsB)
             && DecoratedAt(s.heap, s.heap.classes[clsA], key, fnA, clsA)
    ensures var protoA := s.heap.classes[clsA];
            var call1 := Read(s, true, b, key);
            var super1 := ReadVia(call1.post, true, protoA, key, b);
            var call2 := Read(super1.post, true, b, key);
            var super2 := ReadVia(call2.post, true, protoA, key, b);
            call1.result == Ok(Bind(fnB, b, s.nextId))
            && super1.result.Ok?
            && (forall thisArg :: Dispatch(super1.result.value, thisArg) == Dispatch(fnA, Ref(b)))
            && super1.post.heap == call1.post.heap
            && call2 == Step(call1.result, super1.post)
            && super2 == Step(super1.result, super1.post)
  {
    var protoA, protoB := s.heap.classes[clsA], s.heap.classes[clsB];
    var cA, cB := Autobound(protoA, key, fnA, clsA), Autobound(protoB, key, fnB, clsB);
    assert b != protoB && b != protoA;
    // b.m: B's getter, common case
    assert Lookup(s.heap, b, key) == Lookup(s.heap, protoB, key) == Some(Own(s.heap, protoB, key).value);
    var call1 := Read(s, true, b, key);
    assert call1 == Get(s, true, cB, b);
    // super.m() inside B's method: A's getter, super-call case
    var h1 := call1.post.heap;
    assert Own(h1, protoA, key) == Own(s.heap, protoA, key);
    assert Own(h1, protoB, key) == Own(s.heap, protoB, key);
    assert IsSuperCall(h1, cA, b);
    var super1 := ReadVia(call1.post, true, protoA, key, b);
    assert super1 == Get(call1.post, true, cA, b);
    // b.m again: b's own property
    ReadIsStable(s, true, b, key);
    var call2 := Read(super1.post, true, b, key);
    assert Lookup(super1.post.heap, b, key) == Lookup(h1, b, key);
    // super.m() again: the cache
    assert call2.post == super1.post;
    GetBoundSuperIsMemoized(call1.post, true, b, fnA);
    assert ReadVia(call2.post, true, protoA, key, b) == Get(super1.post, true, cA, b);
  }

  /** The chain the comment at src/autobind.js:58-59 describes with "and so on":
      `class A { @autobind m() {...} }`, `class B extends A { @autobind m() { super.m(); } }`,
      `class C extends B { @autobind m() { super.m(); } }` and `c = new C()`, with
      `c` holding neither `m` nor any cache entry yet. */
  ghost predicate OverridingChain(s: State, key: Key, clsA: ClassId, clsB: ClassId, clsC: ClassId,
                                  fnA: Value, fnB: Value, fnC: Value, c: ObjId)
  {
    Valid(s) && clsA != clsB && clsB != clsC && clsA != clsC
    && clsA in s.heap.classes && clsB in s.heap.classes
    && NewInstance(s.heap, c, clsC, key) && c !in CachedInstances(s)
    && var protoA, protoB, protoC := s.heap.classes[clsA], s.heap.classes[clsB], s.heap.classes[clsC];
       s.heap.objects[protoC].proto == Some(protoB) && s.heap.objects[protoB].proto == Some(protoA)
       && DecoratedAt(s.heap, protoC, key, fnC, clsC)
       && DecoratedAt(s.heap, protoB, key, fnB, clsB)
       && DecoratedAt(s.heap, protoA, key, fnA, clsA)
  }

  /** `c.m` finds C's own getter on `C.prototype` and binds C's method to `c`. */
  lemma ChainFirstRead(s: State, key: Key, clsA: ClassId, clsB: ClassId, clsC: ClassId,
                       fnA: Value, fnB: Value, fnC: Value, c: ObjId)
    requires OverridingChain(s, key, clsA, clsB, clsC, fnA, fnB, fnC, c)
    ensures Read(s, true, c, key)
            == Step(Ok(Bind(fnC, c, s.nextId)),
                    State(DefineOwn(s.heap, c, key, BoundSlot(Bind(fnC, c, s.nextId))), s.mapStore, s.nextId + 1))
  {
    var protoC := s.heap.classes[clsC];
    var cC := Autobound(protoC, key, fnC, clsC);
    assert c != protoC;
    assert Lookup(s.heap, c, key) == Lookup(s.heap, protoC, key);
    assert FindsAccessor(s, c, key, cC) && !IsSuperCall(s.heap, cC, c);
    ReadInstallsBoundMethod(s, true, c, key, c, cC);
  }

  /** After the first read, `super.m()` inside C's method reaches the getter on
      `holder` (made for class `cls`), and since `C.prototype` has its own `m`
      the read goes to `getBoundSuper`. */
  lemma ChainSuperRead(s: State, key: Key, clsA: ClassId, clsB: ClassId, clsC: ClassId,
                       fnA: Value, fnB: Value, fnC: Value, c: ObjId, s1: State, cls: ClassId, fn: Value)
    requires OverridingChain(s, key, clsA, clsB, clsC, fnA, fnB, fnC, c)
    requires cls == clsA || cls == clsB
    requires fn == (if cls == clsA then fnA else fnB)
    requires Valid(s1) && s1.heap == DefineOwn(s.heap, c, key, BoundSlot(Bind(fnC, c, s.nextId)))
    ensures ReadVia(s1, true, s.heap.classes[cls], key, c) == GetBoundSuper(s1, true, c, fn)
  {
    var holder, protoC := s.heap.classes[cls], s.heap.classes[clsC];
    var cH := Autobound(holder, key, fn, cls);
    assert c != holder && c != protoC;
    assert Own(s1.heap, holder, key) == Own(s.heap, holder, key);
    assert Own(s1.heap, protoC, key) == Own(s.heap, protoC, key);
    assert FindsAccessor(s1, holder, key, cH) && IsSuperCall(s1.heap, cH, c);
    ReadResolvesSuperCall(s1, true, holder, key, c, cH);
  }

  /** The `super.m()` inside C's method: B's method bound to `c`, made and
      cached on this first call, with the heap left alone. */
  lemma ChainSuperReadB(s: State, key: Key, clsA: ClassId, clsB: ClassId, clsC: ClassId,
                        fnA: Value, fnB: Value, fnC: Value, c: ObjId, s1: State)
    requires OverridingChain(s, key, clsA, clsB, clsC, fnA, fnB, fnC, c)
    requires s1 == State(DefineOwn(s.heap, c, key, BoundSlot(Bind(fnC, c, s.nextId))), s.mapStore, s.nextId + 1)
    ensures Valid(s1)
    ensures var superB := ReadVia(s1, true, s.heap.classes[clsB], key, c);
            superB.result == Ok(Bind(fnB, c, s1.nextId)) && Valid(superB.post) && superB.post.heap == s1.heap
  {
    DefineOwnWellFormed(s.heap, c, key, BoundSlot(Bind(fnC, c, s.nextId)));
    ChainSuperRead(s, key, clsA, clsB, clsC, fnA, fnB, fnC, c, s1, clsB, fnB);
    assert Cached(s1, c, fnB).None?;
  }

  /** The `super.m()` inside B's method: A's method bound to `c`, with the heap left alone. */
  lemma ChainSuperReadA(s: State, key: Key, clsA: ClassId, clsB: ClassId, clsC: ClassId,
                        fnA: Value, fnB: Value, fnC: Value, c: ObjId, s2: State)
    requires OverridingChain(s, key, clsA, clsB, clsC, fnA, fnB, fnC, c)
    requires Valid(s2) && s2.heap == DefineOwn(s.heap, c, key, BoundSlot(Bind(fnC, c, s.nextId)))
    ensures var superA := ReadVia(s2, true, s.heap.classes[clsA], key, c);
            superA.result.Ok?
            && (forall thisArg :: Dispatch(superA.result.value, thisArg) == Dispatch(fnA, Ref(c)))
            && superA.post.heap == s2.heap
  {
    ChainSuperRead(s, key, clsA, clsB, clsC, fnA, fnB, fnC, c, s2, clsA, fnA);
    assert IsBinding(GetBoundSuper(s2, true, c, fnA).result.value, fnA, c);
  }

  /** Every level overrides and autobinds `m`: `c.m` binds C's method; the
      `super.m()` inside it gets B's method bound to `c`, and the `super.m()`
      inside that gets A's method bound to `c`, both through the cache and
      without touching the heap; afterwards `c.m` is still C's bound method. */
  lemma OverridingChainKeepsMethod(s: State, key: Key, clsA: ClassId, clsB: ClassId, clsC: ClassId,
                                   fnA: Value, fnB: Value, fnC: Value, c: ObjId)
    requires OverridingChain(s, key, clsA, clsB, clsC, fnA, fnB, fnC, c)
    ensures var call1 := Read(s, true, c, key);
            var superB := ReadVia(call1.post, true, s.heap.classes[clsB], key, c);
            var superA := ReadVia(superB.post, true, s.heap.classes[clsA], key, c);
            call1.result == Ok(Bind(fnC, c, s.nextId))
            && superB.result == Ok(Bind(fnB, c, s.nextId + 1))
            && superA.result.Ok?
            && (forall thisArg :: Dispatch(superA.result.value, thisArg) == Dispatch(fnA, Ref(c)))
            && superA.post.heap == call1.post.heap
            && Read(superA.post, true, c, key) == Step(call1.result, superA.post)
  {
    ChainFirstRead(s, key, clsA, clsB, clsC, fnA, fnB, fnC, c);
    var bC := Bind(fnC, c, s.nextId);
    var s1 := State(DefineOwn(s.heap, c, key, BoundSlot(bC)), s.mapStore, s.nextId + 1);
    ChainSuperReadB(s, key, clsA, clsB, clsC, fnA, fnB, fnC, c, s1);
    ChainSuperReadA(s, key, clsA, clsB, clsC, fnA, fnB, fnC, c, ReadVia(s1, true, s.heap.classes[clsB], key, c).post);
    LookupDefinedOwn(s.heap, c, key, BoundSlot(bC));
  }

  /** `class A { @autobind m() {...} }`, `class B extends A { @autobind m() {...} }`,
      `class C extends B {}` and `c = new C()`, with `c` not yet holding `m`. */
  ghost predicate ThreeLevels(s: State, key: Key, clsA: ClassId, clsB: ClassId, clsC: ClassId,
                        fnA: Value, fnB: Value, c: ObjId)
  {
    Valid(s) && clsA != clsB && clsB != clsC && clsA != clsC
    && clsA in s.heap.classes && clsB in s.heap.classes
    && NewInstance(s.heap, c, clsC, key)
    && var protoA, protoB, protoC := s.heap.classes[clsA], s.heap.classes[clsB], s.heap.classes[clsC];
       s.heap.objects[protoC].proto == Some(protoB) && !HasOwn(s.heap, protoC, key)
       && s.heap.objects[protoB].proto == Some(protoA)
       && DecoratedAt(s.heap, protoB, key, fnB, clsB)
       && DecoratedAt(s.heap, protoA, key, fnA, clsA)
  }

  /** `c.m` finds B's getter through `C.prototype` and binds B's method to `c`. */
  lemma GrandparentFirstRead(s: State, hasWeakMap: bool, key: Key, clsA: ClassId, clsB: ClassId, clsC: ClassId,
                             fnA: Value, fnB: Value, c: ObjId)
    requires ThreeLevels(s, key, clsA, clsB, clsC, fnA, fnB, c)
    ensures Read(s, hasWeakMap, c, key)
            == Step(Ok(Bind(fnB, c, s.nextId)),
                    State(DefineOwn(s.heap, c, key, BoundSlot(Bind(fnB, c, s.nextId))), s.mapStore, s.nextId + 1))
  {
    var protoB, protoC := s.heap.classes[clsB], s.heap.classes[clsC];
    var cB := Autobound(protoB, key, fnB, clsB);
    assert c != protoC && c != protoB;
    assert Lookup(s.heap, c, key) == Lookup(s.heap, protoC, key) == Lookup(s.heap, protoB, key);
    assert FindsAccessor(s, c, key, cB) && !IsSuperCall(s.heap, cB, c);
    ReadInstallsBoundMethod(s, hasWeakMap, c, key, c, cB);
  }

  /** After the first read, `super.m()` finds A's getter; since `C.prototype` has
      no own `m` it takes the common path and binds A's method to `c` over B's. */
  lemma GrandparentSuperRead(s: State, hasWeakMap: bool, key: Key, clsA: ClassId, clsB: ClassId, clsC: ClassId,
                             fnA: Value, fnB: Value, c: ObjId, s1: State)
    requires ThreeLevels(s, key, clsA, clsB, clsC, fnA, fnB, c)
    requires s1 == State(DefineOwn(s.heap, c, key, BoundSlot(Bind(fnB, c, s.nextId))), s.mapStore, s.nextId + 1)
    ensures Valid(s1)
    ensures ReadVia(s1, hasWeakMap, s.heap.classes[clsA], key, c)
            == Step(Ok(Bind(fnA, c, s1.nextId)),
                    State(DefineOwn(s1.heap, c, key, BoundSlot(Bind(fnA, c, s1.nextId))), s.mapStore, s1.nextId + 1))
  {
    var protoA, protoC := s.heap.classes[clsA], s.heap.classes[clsC];
    var cA := Autobound(protoA, key, fnA, clsA);
    DefineOwnWellFormed(s.heap, c, key, BoundSlot(Bind(fnB, c, s.nextId)));
    assert c != protoA && c != protoC;
    assert Own(s1.heap, protoA, key) == Own(s.heap, protoA, key);
    assert Own(s1.heap, protoC, key) == Own(s.heap, protoC, key);
    assert FindsAccessor(s1, protoA, key, cA) && !IsSuperCall(s1.heap, cA, c);
    ReadInstallsBoundMethod(s1, hasWeakMap, protoA, key, c, cA);
  }

  /** The test of src/autobind.js:60 looks only at the receiver's own class.
      With `class C extends B {}` not overriding `m` and `c = new C()`, the
      `super.m()` inside B's method reaches A's getter while `C.prototype` has
      no own `m`, so that getter takes the common path and installs A's method
      on `c` over B's: from then on `c.m()` runs A's method instead of B's. */
  lemma GrandparentSuperCallReplacesMethod(s: State, hasWeakMap: bool, key: Key,
                                           clsA: ClassId, clsB: ClassId, clsC: ClassId,
                                           fnA: Value, fnB: Value, c: ObjId)
    requires ThreeLevels(s, key, clsA, clsB, clsC, fnA, fnB, c)
    ensures var call1 := Read(s, hasWeakMap, c, key);
            var super1 := ReadVia(call1.post, hasWeakMap, s.heap.classes[clsA], key, c);
            var call2 := Read(super1.post, hasWeakMap, c, key);
            call1.result == Ok(Bind(fnB, c, s.nextId))
            && super1.result == Ok(Bind(fnA, c, s.nextId + 1))
            && call2 == Step(super1.result, super1.post)
            && (forall thisArg :: Dispatch(call2.result.value, thisArg) == Dispatch(fnA, Ref(c)))
  {
    GrandparentFirstRead(s, hasWeakMap, key, clsA, clsB, clsC, fnA, fnB, c);
    var s1 := State(DefineOwn(s.heap, c, key, BoundSlot(Bind(fnB, c, s.nextId))), s.mapStore, s.nextId + 1);
    GrandparentSuperRead(s, hasWeakMap, key, clsA, clsB, clsC, fnA, fnB, c, s1);
    LookupDefinedOwn(s1.heap, c, key, BoundSlot(Bind(fnA, c, s1.nextId)));
  }
}
