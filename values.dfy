/** Values of the host language, as far as autobinding needs to tell them apart,
    and the binder of src/autobind.js:3-11. */
module Values {

  datatype Option<+T> = None | Some(value: T)

  /** Object identities: ordinary objects, prototypes and instances alike. */
  type ObjId = nat

  /** Property keys. */
  type Key = string

  /** A value. `Fn(fnId)` is an ordinary function, identified by its identity.
      `Bound(target, ctx, boundId)` is a bound function object: calling it calls
      `target` with the receiver fixed to `ctx`; `boundId` is the identity of the
      bound function object itself, so two bindings of one function to one
      receiver are two distinct objects, as `fn.bind` makes them. */
  datatype Value =
    | Undefined
    | Num(n: int)
    | Str(s: string)
    | Ref(obj: ObjId)
    | Fn(fnId: nat)
    | Bound(target: Value, ctx: ObjId, boundId: nat)

  /** `typeof v === 'function'` for every value a program can build: an ordinary
      function, or a bound function whose target is itself callable. */
  predicate Callable(v: Value): (r: bool)
    ensures v.Fn? ==> r
    ensures r ==> v.Fn? || v.Bound?
  {
    match v
    case Fn(_) => true
    case Bound(target, _, _) => Callable(target)
    case _ => false
  }

  /** What a call does: the function body that runs and the receiver it sees as `this`. */
  datatype Invocation = Invocation(body: nat, receiver: Value)

  /** Calling `f` with implicit receiver `thisArg`. An ordinary function runs with
      `thisArg`; a bound function ignores `thisArg` and calls its target with its
      own fixed context. Calling a value that is not callable is a TypeError (`None`). */
  function Dispatch(f: Value, thisArg: Value): (r: Option<Invocation>)
    ensures r.Some? <==> Callable(f)
  {
    match f
    case Fn(id) => Some(Invocation(id, thisArg))
    case Bound(target, ctx, _) => Dispatch(target, Ref(ctx))
    case _ => None
  }

  /** bind(fn, context): a new function object, with identity `id`, that calls
      `fn` with `this` fixed to `context` whatever receiver it is called with.
      The source's two paths (native `fn.bind` and the forwarding closure) make
      the same function, so they are one definition here. */
  function Bind(fn: Value, context: ObjId, id: nat): (r: Value)
    requires Callable(fn)
    ensures Callable(r)
    ensures forall thisArg :: Dispatch(r, thisArg) == Dispatch(fn, Ref(context))
  {
    Bound(fn, context, id)
  }

  /** Binding an already bound function does not change the context it calls with:
      `bind(bind(f, a), b)` still calls `f` with `this` fixed to `a`. */
  lemma RebindKeepsFirstContext(fn: Value, a: ObjId, i: nat, b: ObjId, j: nat, thisArg: Value)
    requires Callable(fn)
    ensures Dispatch(Bind(Bind(fn, a, i), b, j), thisArg) == Dispatch(fn, Ref(a))
  {
    assert Dispatch(Bind(Bind(fn, a, i), b, j), thisArg) == Dispatch(Bind(fn, a, i), Ref(b));
  }
}
