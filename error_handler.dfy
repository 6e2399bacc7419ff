/** The error-handling middleware: how an error a handler passes on becomes
    a status code and a JSON body, or is handed to Express when the response
    has already started. */
module ErrorHandler {
  import opened Common
  import opened Text

  /** The properties of the error object the handler reads. Absent strings
      are "". keyKeys lists the keys of err.keyValue in order (None when
      there is no keyValue); validationMessages lists the message of each
      entry of err.errors (None when err.errors cannot be enumerated). */
  datatype ErrorInfo = ErrorInfo(
    statusCode: Option<int>,
    message: string,
    name: string,
    kind: Option<string>,
    path: string,
    code: Option<int>,
    keyKeys: Option<seq<string>>,
    validationMessages: Option<seq<string>>,
    stack: string)

  /** The fields sent only outside production. */
  datatype Details = Details(code: Option<int>, name: string)

  datatype ErrorBody = ErrorBody(message: string, stack: Option<string>, details: Option<Details>)

  /** What the handler does: answer with a status and body, or call next(err). */
  datatype Handling = Send(status: int, body: ErrorBody) | Delegate

  /** The status and message before the body is assembled. */
  datatype Reply = Reply(status: int, message: string)

  const InternalServerError: string := "Internal Server Error"
  const DuplicateKeyCode: int := 11000

  /** err.statusCode when it is an error status, else 500. */
  function BaseStatus(err: ErrorInfo): (s: int)
    ensures 400 <= s < 600
    ensures err.statusCode.Some? && 400 <= err.statusCode.value < 600 ==> s == err.statusCode.value
  {
    if err.statusCode.Some? && 400 <= err.statusCode.value < 600 then err.statusCode.value else 500
  }

  /** err.message || 'Internal Server Error' */
  function BaseMessage(err: ErrorInfo): (m: string)
    ensures m != ""
    ensures err.message != "" ==> m == err.message
  {
    if err.message != "" then err.message else InternalServerError
  }

  predicate IsObjectIdCast(err: ErrorInfo) {
    err.name == "CastError" && err.kind == Some("ObjectId")
  }

  predicate IsDuplicateKey(err: ErrorInfo) {
    err.code == Some(DuplicateKeyCode)
  }

  predicate IsValidation(err: ErrorInfo) {
    err.name == "ValidationError"
  }

  /** The field a duplicate-key message names: the first key of keyValue,
      'field' without one, and 'undefined' (how JavaScript prints a missing
      element) for an empty keyValue. */
  function DuplicateField(keyKeys: Option<seq<string>>): string {
    match keyKeys
    case None => "field"
    case Some(keys) => if keys == [] then "undefined" else keys[0]
  }

  function CastMessage(path: string): string {
    "Resource not found. Invalid ID format for path: " + (if path != "" then path else "unknown path")
  }

  function DuplicateMessage(keyKeys: Option<seq<string>>): string {
    "Duplicate value entered for '" + DuplicateField(keyKeys) + "'. Please use another value."
  }

  /** The validation messages joined by ", ", or 'Validation Error' when the
      errors cannot be read. */
  function ValidationMessage(messages: Option<seq<string>>): string {
    if messages.Some? then Join(messages.value, ", ") else "Validation Error"
  }

  /** The chain of overrides, each later one replacing what the earlier set. */
  function Classify(err: ErrorInfo): (r: Reply)
    ensures 400 <= r.status < 600
  {
    var base := Reply(BaseStatus(err), BaseMessage(err));
    var afterCast := if IsObjectIdCast(err) then Reply(404, CastMessage(err.path)) else base;
    var afterDuplicate := if IsDuplicateKey(err) then Reply(409, DuplicateMessage(err.keyKeys)) else afterCast;
    if IsValidation(err) then Reply(400, ValidationMessage(err.validationMessages)) else afterDuplicate
  }

  /** errorHandler(err, req, res, next). production is NODE_ENV ===
      'production'; headersSent is res.headersSent. */
  function HandleError(err: ErrorInfo, production: bool, headersSent: bool): (h: Handling)
    ensures h.Delegate? <==> headersSent
    ensures h.Send? ==> 400 <= h.status < 600
    ensures h.Send? && production ==> h.body.stack.None? && h.body.details.None?
    ensures h.Send? && !production ==> h.body.stack == Some(err.stack) && h.body.details == Some(Details(err.code, err.name))
    ensures h.Send? ==> h.status == Classify(err).status && h.body.message == Classify(err).message
  {
    var reply := Classify(err);
    var stack := if production then None else Some(err.stack);
    if headersSent then Delegate
    else Send(reply.status, ErrorBody(reply.message, stack, if production then None else Some(Details(err.code, err.name))))
  }

  /** Which rule decides: a validation error always answers 400, a duplicate
      key 409 unless it is also a validation error, an ObjectId cast 404
      unless a later rule applies, and anything else its own status and
      message (or 500 and the default message). */
  lemma ClassifyPrecedence(err: ErrorInfo)
    ensures IsValidation(err) ==> Classify(err) == Reply(400, ValidationMessage(err.validationMessages))
    ensures !IsValidation(err) && IsDuplicateKey(err) ==> Classify(err) == Reply(409, DuplicateMessage(err.keyKeys))
    ensures !IsValidation(err) && !IsDuplicateKey(err) && IsObjectIdCast(err) ==> Classify(err) == Reply(404, CastMessage(err.path))
    ensures !IsValidation(err) && !IsDuplicateKey(err) && !IsObjectIdCast(err) ==>
              Classify(err) == Reply(BaseStatus(err), BaseMessage(err))
    ensures !IsValidation(err) ==> Classify(err).message != ""
  {
  }

  // ---------------------------------------------------------------------
  // The errors the controllers raise
  // ---------------------------------------------------------------------

  /** The error object behind a Failure: an Error with that statusCode and
      message, and nothing else set. */
  function FromFailure(f: Failure, stack: string): ErrorInfo {
    ErrorInfo(Some(f.status), f.message, "Error", None, "", None, None, None, stack)
  }

  /** A failure with an error status and a message reaches the client as
      raised; with any other status it becomes a 500 carrying the same
      message. */
  lemma FailureResponse(f: Failure, stack: string, production: bool)
    requires f.message != ""
    ensures var h := HandleError(FromFailure(f, stack), production, false);
            && h.Send?
            && h.body.message == f.message
            && (400 <= f.status < 600 ==> h.status == f.status)
            && (!(400 <= f.status < 600) ==> h.status == 500)
  {
    ClassifyPrecedence(FromFailure(f, stack));
  }
}
