/** GlobalExceptionHandler together with ClientController's answer to a
    normal return: the HTTP status and body a migrate request produces. */
module Errors {
  import opened Model

  const Ok := 200
  const BadRequest := 400
  const NotFound := 404
  const InternalServerError := 500

  const UnexpectedPrefix := "An unexpected error occurred: "

  /** A response: status and body; `None` is an empty body. */
  datatype ResponseEntity = ResponseEntity(status: int, body: Option<map<string, string>>)

  /** The four @ExceptionHandler methods; Spring picks the most specific one,
      so `Unexpected` is everything the first three do not catch. Business-rule
      violations are client errors (4xx); the rest are server failures. */
  function HandleException(e: Exception): (r: ResponseEntity)
    ensures r.body.Some? && r.body.value.Keys == {"error"}
    ensures e.ClientNotFound? <==> r.status == NotFound
    ensures e.IllegalState? <==> r.status == BadRequest
    ensures e.Migration? || e.Unexpected? <==> r.status == InternalServerError
    ensures !e.Unexpected? ==> r.body.value["error"] == e.message
    ensures e.Unexpected? ==> r.body.value["error"] == UnexpectedPrefix + e.message
  {
    var (status, text) := match e
      case ClientNotFound(m) => (NotFound, m)
      case IllegalState(m) => (BadRequest, m)
      case Migration(m) => (InternalServerError, m)
      case Unexpected(m) => (InternalServerError, UnexpectedPrefix + m);
    ResponseEntity(status, Some(map["error" := text]))
  }

  /** POST /api/migrate/{id}: 200 with an empty body on a normal return,
      otherwise whatever the exception handler makes of the exception. */
  function MigrateResponse(outcome: Outcome): (r: ResponseEntity)
    ensures r.status in {Ok, BadRequest, NotFound, InternalServerError}
    ensures r.status == Ok <==> outcome.Returned?
    ensures r.body.None? <==> outcome.Returned?
    ensures outcome.Threw? ==> r == HandleException(outcome.exception)
  {
    match outcome
    case Returned => ResponseEntity(Ok, None)
    case Threw(e) => HandleException(e)
  }

  /** A 404 or a 400 response determines the exception that caused it: its
      kind by the status, its message by the body. */
  lemma ClientErrorsIdentifyException(e1: Exception, e2: Exception)
    requires HandleException(e1) == HandleException(e2)
    requires HandleException(e1).status != InternalServerError
    ensures e1 == e2
  {
  }

  /** The 500 answers are ambiguous: a MigrationException whose message begins
      with the generic prefix reads like an unexpected error. */
  lemma ServerErrorsCanCoincide(m: string)
    ensures HandleException(Migration(UnexpectedPrefix + m)) == HandleException(Unexpected(m))
  {
  }
}
