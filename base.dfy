/** Values shared by every module: optional values, JavaScript truthiness of
    optional strings, the errors the program can raise, and the outcome of an
    operation that may throw or may still be polling. */
module Base {

  datatype Option<T> = None | Some(value: T) {
    /** The value, or `default` when absent (JavaScript's `??`). */
    function GetOr(default: T): T {
      if Some? then value else default
    }
  }

  /** An optional string is truthy in JavaScript unless it is undefined, null or "". */
  predicate Truthy(s: Option<string>) {
    s.Some? && s.value != ""
  }

  datatype Error =
    | NotFound                 // the API answered that the object does not exist
    | AlreadyExists            // the API refused to create an object that exists
    | Invalid                  // the API refused a json-patch whose path does not exist
    | Unavailable              // the API could not return a pod's log
    | Thrown(message: string)  // the program itself threw `new Error(message)`

  /** The result of an operation: it returned, it threw, or it is still inside
      one of its unbounded polls when the observations given to it ran out. */
  datatype Outcome<T> = Ok(value: T) | Err(error: Error) | Waiting {
    /** The same failure, at another value type. */
    function Propagate<U>(): (r: Outcome<U>)
      requires !Ok?
      ensures r.Err? <==> Err?
      ensures r.Err? ==> r.error == error
    {
      if Err? then Err(error) else Waiting
    }
  }
}
