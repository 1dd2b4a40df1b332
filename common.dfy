/** Values shared by the component models: optional props, the loose JavaScript
    values that user callbacks may return, truthiness, the size enum and the error
    the library raises with `throwError`. */
module Common {

  /** An optional prop or context entry; `None` stands for `undefined`. */
  datatype Option<T> = None | Some(value: T) {
    function GetOr(default: T): T {
      if Some? then value else default
    }
  }

  /** The three component sizes of `ComponentSizeMap`. */
  datatype ComponentSize = Large | Default | Small

  /** A JavaScript value as far as the components look at it. Numbers are
      integers here: NaN and fractions are not modelled. */
  datatype JsValue = Undefined | Null | Bool(b: bool) | Num(n: int) | Str(s: string) | Object

  /** JavaScript truthiness (`!!v`). */
  predicate Truthy(v: JsValue) {
    match v
    case Undefined => false
    case Null => false
    case Bool(b) => b
    case Num(n) => n != 0
    case Str(s) => s != ""
    case Object => true
  }

  /** The values `??` replaces. */
  predicate Nullish(v: JsValue) {
    v.Undefined? || v.Null?
  }

  /** What `throwError(scope, message)` raises. */
  datatype Thrown = Thrown(scope: string, message: string)

  /** A handler either completes or throws. */
  datatype Outcome = Completed | Threw(error: Thrown)

  /** The successful value of a lookup, or the error it throws. */
  datatype Result<T> = Ok(value: T) | Err(error: Thrown)
}
