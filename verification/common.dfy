/** Shared vocabulary of the backend model: identifiers, dates and money,
    JavaScript truthiness of request fields, and the HTTP outcome of a handler. */
module Common {

  /** Primary keys are UUID strings generated by the database layer. */
  type Id = string

  /** A point in time (DATE columns); only their order matters here. */
  type Date = int

  /** DECIMAL(10, 2) money amounts, in hundredths. */
  type Cents = int

  datatype Option<+T> = None | Some(value: T) {
    function GetOr(default: T): T {
      match this
      case Some(v) => v
      case None => default
    }
  }

  /** A request-body field that is absent (`undefined`/`null`) is `None`.
      JavaScript truthiness: a string is truthy when non-empty, a number
      when non-zero. */
  predicate TruthyStr(f: Option<string>) {
    f.Some? && f.value != ""
  }

  predicate TruthyInt(f: Option<int>) {
    f.Some? && f.value != 0
  }

  /** `x || fallback` on a numeric field. */
  function OrInt(f: Option<int>, fallback: int): (r: int)
    ensures TruthyInt(f) ==> r == f.value
    ensures !TruthyInt(f) ==> r == fallback
  {
    if TruthyInt(f) then f.value else fallback
  }

  /** `if (f) column = f` for a NOT NULL text column. */
  function OrStr(f: Option<string>, column: string): (v: string)
    ensures TruthyStr(f) ==> v == f.value
    ensures !TruthyStr(f) ==> v == column
  {
    if TruthyStr(f) then f.value else column
  }

  /** `if (f) column = f` for a nullable text column. */
  function OrText(f: Option<string>, column: Option<string>): (v: Option<string>)
    ensures TruthyStr(f) ==> v == f
    ensures !TruthyStr(f) ==> v == column
  {
    if TruthyStr(f) then f else column
  }

  /** `if (f) column = f` for a nullable numeric column. */
  function OrNumber(f: Option<int>, column: Option<int>): (v: Option<int>)
    ensures TruthyInt(f) ==> v == f
    ensures !TruthyInt(f) ==> v == column
  {
    if TruthyInt(f) then f else column
  }

  /** What a route handler sends back: the HTTP status (200, 201, 400, 401,
      403, 404 or 500, in this order) and its payload or message. */
  datatype Response<+T> =
    | Ok(value: T)
    | Created(value: T)
    | BadRequest(message: string)
    | Unauthorized(message: string)
    | Forbidden(message: string)
    | NotFound(message: string)
    | ServerError(message: string)
}
