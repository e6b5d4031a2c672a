/** Values shared by the task routes and the auth routes: optional request
    fields, handler results, validation errors and the library functions the
    routes call but whose behaviour is not modelled. */
module Common {

  /** An optional request field: None is a field the request body (or query
      string) leaves undefined. */
  datatype Option<+T> = None | Some(value: T) {
    /** `x !== undefined ? x : fallback` */
    function GetOr(fallback: T): T {
      match this
      case Some(v) => v
      case None => fallback
    }
  }

  /** Identifiers the store assigns (MongoDB ObjectIds). */
  type UserId = nat
  type TaskId = nat

  /** JavaScript truthiness of an optional string field. */
  predicate Truthy(x: Option<string>) {
    x.Some? && x.value != ""
  }

  /** `x || fallback`, for a string-valued field. */
  function Or(x: Option<string>, fallback: string): string {
    if Truthy(x) then x.value else fallback
  }

  /** The `trim()` sanitizer of a validation chain rewrites the field in the
      request body when it is present. */
  function Trimmed(trim: string -> string, x: Option<string>): Option<string> {
    match x
    case Some(s) => Some(trim(s))
    case None => None
  }

  /** One entry of `validationResult(req).array()`: the field and its message. */
  datatype FieldError = FieldError(field: string, msg: string)

  /** One link of a validation chain: no error when the check passes, its
      error otherwise. */
  function Check(ok: bool, e: FieldError): seq<FieldError> {
    if ok then [] else [e]
  }

  /** What a route handler answers. Ok carries the JSON body of a 200/201
      answer; Validation is the 400 `{errors: [...]}` answer; the others are
      `{message}` answers: NotFound 404, NotAuthorized 401 (a task of another
      user), Conflict 400 (duplicate email), InvalidCredentials 401 (login),
      ServerError 500 (a save the user store refuses). */
  datatype Result<+T> =
    | Ok(value: T)
    | Validation(errors: seq<FieldError>)
    | NotFound(message: string)
    | NotAuthorized(message: string)
    | Conflict(message: string)
    | InvalidCredentials(message: string)
    | ServerError(message: string)
  {
    /** The same error answer, for a handler whose success body has another type. */
    function Forward<U>(): Result<U>
      requires !Ok?
    {
      match this
      case Validation(e) => Validation(e)
      case NotFound(m) => NotFound(m)
      case NotAuthorized(m) => NotAuthorized(m)
      case Conflict(m) => Conflict(m)
      case InvalidCredentials(m) => InvalidCredentials(m)
      case ServerError(m) => ServerError(m)
    }
  }

  const ServerErrorMessage := "Server error"

  /** Library behaviour the routes rely on, left uninterpreted: the `trim`
      sanitizer and `isEmail` validator of express-validator, the password
      hashing done when a user is saved, and `user.comparePassword`. */
  datatype Library = Library(
    trim: string -> string,
    isEmail: string -> bool,
    hash: string -> string,
    comparePassword: (string, string) -> bool)
}
