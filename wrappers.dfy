/** Small result types shared by the model. */
module Wrappers {

  /** An optional value: a request field that was omitted, or a lookup that found nothing. */
  datatype Option<+T> = None | Some(value: T) {

    /** The value when present, the default otherwise. */
    function GetOr(default: T): T {
      match this
      case Some(v) => v
      case None => default
    }
  }

  /** What a route handler answers: a view on success, or the error it raises.
      NotFound is the 404 answer, Conflict a duplicate or a blocked delete,
      Invalid a request body or query parameter that fails validation (422). */
  datatype Outcome<+T> = Ok(view: T) | NotFound | Conflict | Invalid
}
