/** Values shared by every part of the model: names, producer identities,
    the values a pass moves around, and the exceptions it can raise. */
module Base {

  /** A parameter or context key. */
  type Name = string

  /** Opaque identity of a producer callable (stands for Python's `hash(call)`). */
  type ProducerId = nat

  datatype Option<+T> = None | Some(value: T)

  datatype Result<+T> = Ok(value: T) | Err(error: Exc)

  /** The exceptions the model distinguishes.  `UserError` is anything a
      producer, a handler or a resource's release step raises itself. */
  datatype Exc = TypeError | ValueError | KeyError | RuntimeError | UserError(code: nat)

  /** The values producers return and the ambient context holds. */
  datatype Value = NoneValue | Bool(b: bool) | Int(i: int) | Str(s: string) | Object(id: nat)

  /** Python truthiness of a value: `None`, `False`, `0` and `""` are false. */
  predicate Truthy(v: Value)
  {
    match v
    case NoneValue => false
    case Bool(b) => b
    case Int(i) => i != 0
    case Str(s) => s != ""
    case Object(_) => true
  }

  /** What a release step (`__exit__` / `__aexit__`) does: return a value of the
      given truthiness, or raise. */
  datatype ExitReply = ExitReturned(truthy: bool) | ExitRaised(error: Exc)

  /** What calling (or entering) a producer gives: a value or an exception. */
  datatype Outcome = Returned(value: Value) | Raised(error: Exc)
}
