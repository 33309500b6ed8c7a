/**
 * The error taxonomy of `errorHandling.ts`: application errors with an
 * error code, an HTTP status and an optional suggestion; the JSON-RPC error
 * class `MCPError`; and the two functions that turn anything thrown into an
 * API error body and an HTTP status.
 */
module ErrorHandling {
  import opened Wrappers
  import opened Text

  /** The JSON-RPC error codes of `constants/index.ts`. */
  const InvalidRequestCode: int := -32600
  const MethodNotFoundCode: int := -32601
  const InvalidParamsCode: int := -32602
  const ComponentNotFoundCode: int := -32000
  const InvalidTreeStructureCode: int := -32001
  const VersionConflictCode: int := -32002

  /** `AppError` and its three subclasses, each holding its constructor arguments. */
  datatype AppError =
    | AppError(appMessage: string, appCode: string, appStatus: int, appSuggestion: Option<string>)
    | NotFoundError(resource: string, id: string)
    | ValidationError(validationMessage: string, field: Option<string>)
    | VersionConflictError(expectedVersion: int, actualVersion: int)
  {
    /** The `name` each class sets in its constructor. */
    function Name(): string {
      match this
      case AppError(_, _, _, _) => "AppError"
      case NotFoundError(_, _) => "NotFoundError"
      case ValidationError(_, _) => "ValidationError"
      case VersionConflictError(_, _) => "VersionConflictError"
    }

    function Message(): string {
      match this
      case AppError(m, _, _, _) => m
      case NotFoundError(r, id) => r + " with id '" + id + "' not found"
      case ValidationError(m, _) => m
      case VersionConflictError(e, a) => "Version conflict: expected " + IntStr(e) + ", got " + IntStr(a)
    }

    function Code(): string {
      match this
      case AppError(_, c, _, _) => c
      case NotFoundError(_, _) => "NOT_FOUND"
      case ValidationError(_, _) => "VALIDATION_ERROR"
      case VersionConflictError(_, _) => "VERSION_CONFLICT"
    }

    function StatusCode(): int {
      match this
      case AppError(_, _, s, _) => s
      case NotFoundError(_, _) => 404
      case ValidationError(_, _) => 400
      case VersionConflictError(_, _) => 409
    }

    function Suggestion(): Option<string> {
      match this
      case AppError(_, _, _, s) => s
      case NotFoundError(r, _) => Some("Check that the " + LowerAscii(r) + " exists and the ID is correct")
      case ValidationError(_, _) => None
      case VersionConflictError(_, _) => Some("Refresh the page to get the latest state and try again")
    }
  }

  /** `new AppError(message, code, statusCode?, suggestion?)`: the status defaults to 500. */
  function NewAppError(message: string, code: string, statusCode: Option<int>, suggestion: Option<string>): (e: AppError)
    ensures e.Message() == message && e.Code() == code && e.Suggestion() == suggestion
    ensures e.StatusCode() == (if statusCode.Some? then statusCode.value else 500)
    ensures e.Name() == "AppError"
  {
    AppError(message, code, if statusCode.Some? then statusCode.value else 500, suggestion)
  }

  /** The body `toJSON()` and `formatErrorResponse` produce. */
  datatype ErrorBody = ErrorBody(message: string, code: string, suggestion: Option<string>)

  /** `AppError.prototype.toJSON`. */
  function ToJson(e: AppError): ErrorBody {
    ErrorBody(e.Message(), e.Code(), e.Suggestion())
  }

  /** The error object of a JSON-RPC response: `data` holds the suggestion, when there is one. */
  datatype McpError = McpError(code: int, message: string, data: Option<string>)

  /** `new MCPError(code, message, suggestion?)`: `data` is set only for a non-empty suggestion. */
  function NewMcpError(code: int, message: string, suggestion: Option<string>): (e: McpError)
    ensures e.code == code && e.message == message
    ensures e.data.Some? <==> suggestion.Some? && suggestion.value != ""
    ensures e.data.Some? ==> e.data == suggestion
  {
    McpError(code, message, if suggestion.Some? && suggestion.value != "" then suggestion else None)
  }

  function InvalidRequest(message: string): McpError {
    NewMcpError(InvalidRequestCode, message, None)
  }

  function MethodNotFound(methodName: string): McpError {
    NewMcpError(MethodNotFoundCode, "Method '" + methodName + "' not found", None)
  }

  function InvalidParams(message: string): McpError {
    NewMcpError(InvalidParamsCode, message, None)
  }

  function ComponentNotFound(name: string): McpError {
    NewMcpError(ComponentNotFoundCode, "Component '" + name + "' not found in registry", None)
  }

  function InvalidTreeStructure(message: string): McpError {
    NewMcpError(InvalidTreeStructureCode, message, None)
  }

  function VersionConflict(expected: int, actual: int): McpError {
    NewMcpError(VersionConflictCode, "Version conflict: expected " + IntStr(expected) + ", got " + IntStr(actual),
      Some("Refresh to get latest state"))
  }

  /** Every factory of `MCPError` uses a code in the server-error or reserved JSON-RPC range. */
  lemma McpFactoryCodes(message: string, expected: int, actual: int)
    ensures InvalidRequest(message).code == -32600 && InvalidRequest(message).data.None?
    ensures MethodNotFound(message).code == -32601
    ensures InvalidParams(message).code == -32602
    ensures ComponentNotFound(message).code == -32000
    ensures InvalidTreeStructure(message).code == -32001
    ensures VersionConflict(expected, actual).code == -32002
    ensures VersionConflict(expected, actual).data == Some("Refresh to get latest state")
  {
  }

  /**
   * Anything a `catch` clause can receive: an application error, an
   * `MCPError`, another `Error` (its `name` and `message`), or a thrown
   * value that is not an `Error` at all.
   */
  datatype Thrown =
    | App(app: AppError)
    | Mcp(mcp: McpError)
    | OtherError(name: string, message: string)
    | NotAnError

  /** The `message` the engine gives a TypeError; its wording is not modelled. */
  const TypeErrorMessage := "TypeError"

  const EngineTypeError: Thrown := OtherError("TypeError", TypeErrorMessage)

  /** `error.name` for an `Error`. */
  function ErrorName(t: Thrown): Option<string> {
    match t
    case App(e) => Some(e.Name())
    case Mcp(_) => Some("MCPError")
    case OtherError(n, _) => Some(n)
    case NotAnError => None
  }

  /** `error.message` for an `Error`. */
  function ErrorMessage(t: Thrown): Option<string> {
    match t
    case App(e) => Some(e.Message())
    case Mcp(e) => Some(e.message)
    case OtherError(_, m) => Some(m)
    case NotAnError => None
  }

  /**
   * `formatErrorResponse(error)`: an application error's own body; any
   * other `Error` as an internal error with its message; anything else as
   * an unknown error.
   */
  function FormatErrorResponse(t: Thrown): ErrorBody {
    match t
    case App(e) => ToJson(e)
    case NotAnError => ErrorBody("An unexpected error occurred", "UNKNOWN_ERROR", None)
    case _ => ErrorBody(ErrorMessage(t).value, "INTERNAL_ERROR", None)
  }

  /** `getErrorStatusCode(error)`: an application error's status, otherwise 500. */
  function GetErrorStatusCode(t: Thrown): int {
    if t.App? then t.app.StatusCode() else 500
  }

  /** The three subclasses answer 404, 400 and 409, with the codes their names promise. */
  lemma SubclassStatus(resource: string, id: string, message: string, field: Option<string>, expected: int, actual: int)
    ensures GetErrorStatusCode(App(NotFoundError(resource, id))) == 404
    ensures FormatErrorResponse(App(NotFoundError(resource, id))).code == "NOT_FOUND"
    ensures GetErrorStatusCode(App(ValidationError(message, field))) == 400
    ensures FormatErrorResponse(App(ValidationError(message, field))) == ErrorBody(message, "VALIDATION_ERROR", None)
    ensures GetErrorStatusCode(App(VersionConflictError(expected, actual))) == 409
    ensures FormatErrorResponse(App(VersionConflictError(expected, actual))).suggestion.Some?
  {
  }

  /**
   * Anything but an application error is answered with status 500, one of
   * the two generic codes and no suggestion; an `Error` keeps its message.
   */
  lemma GenericUnlessApp(t: Thrown)
    requires !t.App?
    ensures GetErrorStatusCode(t) == 500
    ensures FormatErrorResponse(t).code == (if t.NotAnError? then "UNKNOWN_ERROR" else "INTERNAL_ERROR")
    ensures !t.NotAnError? ==> FormatErrorResponse(t).message == ErrorMessage(t).value
    ensures FormatErrorResponse(t).suggestion.None?
  {
  }

  /** An application error is answered with its own status, message, code and suggestion. */
  lemma AppErrorAnswer(e: AppError)
    ensures GetErrorStatusCode(App(e)) == e.StatusCode()
    ensures FormatErrorResponse(App(e)) == ErrorBody(e.Message(), e.Code(), e.Suggestion())
  {
  }
}
