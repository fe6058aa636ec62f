/** The `{ _tag: 'WrappedError', err }` envelope that resolvers return instead
    of throwing, and the type predicates that pick the GraphQL object type for
    it (src/utils/errors/wrapped-error.ts). */
module WrappedErrors {
  import opened Wrappers
  import opened Errors

  /** `ResultOrError<T>`: either the resolver's value or a wrapped error. */
  datatype ResultOrError<+T> = Value(value: T) | WrappedError(err: Error)

  const WrappedErrorTag: string := "WrappedError"

  /** The `_tag` property of a resolver result; plain values have none. */
  function Tag<T>(v: ResultOrError<T>): Option<string> {
    if v.WrappedError? then Some(WrappedErrorTag) else None
  }

  /** `wrappedError(e)`. */
  function Wrap<T>(e: Error): (r: ResultOrError<T>)
    ensures Tag(r) == Some(WrappedErrorTag)
    ensures r.WrappedError? && r.err == e
  {
    WrappedError(e)
  }

  /** `isWrappedError(C)(v)`: `v?._tag === 'WrappedError' && v.err instanceof C`. */
  predicate IsWrappedError<T>(c: ErrorClass, v: ResultOrError<T>) {
    Tag(v) == Some(WrappedErrorTag) && InstanceOf(v.err, c)
  }

  /** A wrapped error is recognised by `isWrappedError(C)` exactly when its
      error is of class `C`. */
  lemma IsWrappedErrorOfWrap<T>(c: ErrorClass, e: Error)
    ensures IsWrappedError(c, Wrap<T>(e)) <==> ClassOf(e) == Some(c)
  {
  }

  /** A plain value (a Page, Pages, ...) is never taken for a wrapped error. */
  lemma PlainValueIsNoWrappedError<T>(c: ErrorClass, x: T)
    ensures !IsWrappedError(c, Value(x))
  {
  }

  /** Type dispatch over a wrapped error: exactly one of the three predicates
      holds for a domain error, and none for any other error. */
  lemma WrappedErrorDispatch<T>(e: Error)
    ensures ClassOf(e).Some? ==>
      forall c :: IsWrappedError(c, Wrap<T>(e)) <==> c == ClassOf(e).value
    ensures ClassOf(e).None? ==> forall c :: !IsWrappedError(c, Wrap<T>(e))
  {
  }

  /** `wrappedErrorField(C)('message')(w)`. */
  function WrappedErrorMessage<T>(w: ResultOrError<T>): (m: string)
    requires w.WrappedError?
    ensures forall e :: w == Wrap(e) ==> m == e.message
  {
    w.err.message
  }

  /** The GraphQL resolvers shared by the three error object types. */
  datatype CommonResolvers<!T> = CommonResolvers(
    isTypeOf: ResultOrError<T> -> bool,
    message: ResultOrError<T> --> string)

  /** `errorTypesCommonResolvers(C)`: `__isTypeOf` is `isWrappedError(C)` and
      `message` reads the wrapped error's message. */
  function ErrorTypesCommonResolvers<T(!new)>(c: ErrorClass): (r: CommonResolvers<T>)
    ensures forall v :: r.isTypeOf(v) == IsWrappedError(c, v)
    ensures forall e :: r.message.requires(Wrap(e)) && r.message(Wrap(e)) == e.message
  {
    CommonResolvers(
      (v: ResultOrError<T>) => IsWrappedError(c, v),
      (v: ResultOrError<T>) requires v.WrappedError? => WrappedErrorMessage(v))
  }
}
