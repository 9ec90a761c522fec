/**
 * HTTP status codes (as the `http-status` package names them), the HttpException the
 * services throw, and the other kinds of error the global error handler distinguishes.
 */
module Errors {
  import opened Wrappers

  const BadRequest: int := 400
  const Unauthorized: int := 401
  const Forbidden: int := 403
  const NotFound: int := 404
  const Conflict: int := 409
  const InternalServerError: int := 500

  /** One segment of a validation issue's path: an object key or an array index. */
  datatype PathSegment = Key(name: string) | Index(position: nat)

  /** One issue of a failed schema validation. */
  datatype ZodIssue = ZodIssue(path: seq<PathSegment>, message: string)

  /**
   * Everything a service or a middleware can throw, as the error handler tells them apart:
   * an HttpException (status and message), a schema validation failure, a known request
   * error of the database client (its code and the offending columns), or any other
   * Error, known only by its `name`.
   */
  datatype AppError =
    | HttpException(status: int, message: string)
    | ZodError(issues: seq<ZodIssue>)
    | PrismaKnownRequestError(code: string, target: Option<seq<string>>)
    | OtherError(name: string)

  /** The generic 401 of the authentication paths. */
  const PleaseAuthenticate: AppError := HttpException(Unauthorized, "Please authenticate")

  /** What the database raises when an insert or update would duplicate a unique column. */
  function UniqueViolation(column: string): (e: AppError)
    ensures e.PrismaKnownRequestError? && e.code == "P2002"
  {
    PrismaKnownRequestError("P2002", Some([column]))
  }
}
