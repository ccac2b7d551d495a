/** Values shared by every part of the model: optional values, the outcome of a
    route, and the error kinds a route answers with. */
module Common {

  /** `None` stands for a value that is absent from the request (`undefined`). */
  datatype Option<T> = None | Some(value: T)

  /** The error a route answers with. `Validation` and `DuplicateKey` are the two
      errors the document store raises on a write, which every route's catch
      turns into a 500 answer; `Crash` is a 500 caused by a runtime type error. */
  datatype Error =
    | BadRequest(message: string)
    | Unauthorized(message: string)
    | NotFound(message: string)
    | Validation
    | DuplicateKey(path: string)
    | Crash

  /** The outcome of a route: the value it answers with, or an error. */
  datatype Result<T> = Ok(value: T) | Err(error: Error)

  /** The HTTP status the route sends for an error. */
  function Status(e: Error): (code: nat)
    ensures code in {400, 401, 404, 500}
    ensures code == 400 <==> e.BadRequest?
    ensures code == 404 <==> e.NotFound?
  {
    match e
    case BadRequest(_) => 400
    case Unauthorized(_) => 401
    case NotFound(_) => 404
    case Validation => 500
    case DuplicateKey(_) => 500
    case Crash => 500
  }

  type Id = nat
}
