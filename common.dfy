/** Types shared by every module: optional values, results, document
    identifiers and the failures a request handler reports. */
module Common {

  /** A value that may be missing: an absent request field or an unset document field. */
  datatype Option<+T> = None | Some(value: T) {
    /** The value, or `default` when it is missing. */
    function GetOr(default: T): T {
      match this
      case Some(v) => v
      case None => default
    }
  }

  datatype Result<+T, +E> = Ok(value: T) | Err(error: E)

  /** A document identifier. The database hands out a fresh one for every insert. */
  type ObjectId = nat

  /** How a request fails. */
  datatype ApiError =
    | BadRequest     // 400: a required request field is falsy
    | NotFound       // 404: no document has the requested id
    | Invalid        // the schema refuses the document: a required field is missing or a value is outside its enumeration
    | DuplicateKey   // the unique (name, year) index refuses a second festival
    | QueryRejected  // the database refuses a negative $skip or a $limit that is not positive

  /** A request string is truthy when it is present and not empty. */
  predicate Truthy(s: Option<string>) {
    s.Some? && s.value != ""
  }
}
