/**
 * The MCP error taxonomy: one constructor per error class with its fixed
 * error type and status code, the HTTP-status-to-class mapping, the API
 * error response, the conversion of validation failures, and the
 * exception mapping applied around every MCP tool.
 */
module Errors {
  import opened Common

  /** An MCP error, as the arguments its class was constructed with. */
  datatype McpError =
    | BaseError(message: string, errorType: string, statusCode: int)
    | ToolError(message: string, toolName: Option<string>)
      /** `validationErrors` is the map after `validation_errors or {}`. */
    | ValidationError(message: string, validationErrors: map<string, string>)
    | AuthenticationError(message: string)
    | RateLimitError(message: string)
      /** `detail` is the message passed in; the error's message prefixes the dependency. */
    | DependencyError(detail: string, dependencyName: string)
  {
    /** The `message` attribute (also `str(error)`). */
    function Message(): string {
      match this
      case BaseError(m, _, _) => m
      case ToolError(m, _) => m
      case ValidationError(m, _) => m
      case AuthenticationError(m) => m
      case RateLimitError(m) => m
      case DependencyError(d, name) => name + " error: " + d
    }

    /** The `error_type` attribute. */
    function ErrorType(): string {
      match this
      case BaseError(_, t, _) => t
      case ToolError(_, _) => "MCPToolError"
      case ValidationError(_, _) => "MCPValidationError"
      case AuthenticationError(_) => "MCPAuthenticationError"
      case RateLimitError(_) => "MCPRateLimitError"
      case DependencyError(_, _) => "MCPDependencyError"
    }

    /** The `status_code` attribute. */
    function StatusCode(): int {
      match this
      case BaseError(_, _, c) => c
      case ToolError(_, _) => 400
      case ValidationError(_, _) => 422
      case AuthenticationError(_) => 401
      case RateLimitError(_) => 429
      case DependencyError(_, _) => 502
    }
  }

  const DefaultAuthenticationMessage: string := "Authentication failed"
  const DefaultRateLimitMessage: string := "Rate limit exceeded"

  /** `MCPBaseError(message)` with its default type and status. */
  function NewBaseError(message: string): (e: McpError)
    ensures e.Message() == message && e.ErrorType() == "MCPError" && e.StatusCode() == 400
  {
    BaseError(message, "MCPError", 400)
  }

  /** `MCPValidationError(message, validation_errors)`: a missing map becomes the empty one. */
  function NewValidationError(message: string, errors: Option<map<string, string>>): (e: McpError)
    ensures e.Message() == message && e.StatusCode() == 422 && e.ValidationError?
    ensures errors.None? ==> e.validationErrors == map[]
    ensures errors.Some? ==> e.validationErrors == errors.value
  {
    ValidationError(message, if errors.Some? then errors.value else map[])
  }

  /** `MCPAuthenticationError(message)`, with "Authentication failed" when no message is given. */
  function NewAuthenticationError(message: Option<string>): (e: McpError)
    ensures e.StatusCode() == 401 && e.ErrorType() == "MCPAuthenticationError"
    ensures e.Message() == if message.Some? then message.value else DefaultAuthenticationMessage
  {
    AuthenticationError(if message.Some? then message.value else DefaultAuthenticationMessage)
  }

  /** `MCPRateLimitError(message)`, with "Rate limit exceeded" when no message is given. */
  function NewRateLimitError(message: Option<string>): (e: McpError)
    ensures e.StatusCode() == 429 && e.ErrorType() == "MCPRateLimitError"
    ensures e.Message() == if message.Some? then message.value else DefaultRateLimitMessage
  {
    RateLimitError(if message.Some? then message.value else DefaultRateLimitMessage)
  }

  /** What a non-MCP exception is, as far as the error handlers can tell. */
  datatype ForeignKind =
    | PydanticValidation(details: seq<ErrorDetail>)   // pydantic `ValidationError`
    | HttpException(statusCode: int, detail: string)  // FastAPI `HTTPException`
    | Plain                                           // any other `Exception`
    | NotAnException                                  // a `BaseException` that is not an `Exception`
                                                      // (`CancelledError`, `KeyboardInterrupt`, `SystemExit`)

  /** One entry of pydantic's `errors()`: the location path (each part
      already rendered with `str`) and the message. */
  datatype ErrorDetail = ErrorDetail(loc: seq<string>, msg: string)

  /** A raised Python exception; `text` is `str(e)` for a non-MCP one. */
  datatype Exception =
    | Mcp(error: McpError)
    | Foreign(kind: ForeignKind, text: string)

  /** The TypeError raised when `handle_http_error` constructs a dependency
      error without its required `dependency_name`. */
  const MissingDependencyName: string :=
    "MCPDependencyError.__init__() missing 1 required positional argument: 'dependency_name'"

  // ---------------------------------------------------------------- validation errors

  /** `" -> ".join(parts)` */
  function JoinLoc(parts: seq<string>): string {
    if |parts| == 0 then ""
    else if |parts| == 1 then parts[0]
    else parts[0] + " -> " + JoinLoc(parts[1..])
  }

  /** The map built by the loop of `handle_validation_error`: every detail,
      in order, stores its message under its joined location, so the last
      detail for a location wins. */
  function LocationMap(details: seq<ErrorDetail>): map<string, string> {
    if |details| == 0 then map[]
    else
      var last := details[|details| - 1];
      LocationMap(details[..|details| - 1])[JoinLoc(last.loc) := last.msg]
  }

  /** A location is a key of the map exactly when some detail has it. */
  lemma {:induction false} LocationMapKeys(details: seq<ErrorDetail>, key: string)
    ensures key in LocationMap(details) <==> exists i :: 0 <= i < |details| && JoinLoc(details[i].loc) == key
  {
    if |details| > 0 {
      var n := |details| - 1;
      var prefix := details[..n];
      LocationMapKeys(prefix, key);
      if key in LocationMap(prefix) {
        var i :| 0 <= i < |prefix| && JoinLoc(prefix[i].loc) == key;
        assert details[i] == prefix[i];
      }
      forall i | 0 <= i < n && JoinLoc(details[i].loc) == key
        ensures key in LocationMap(prefix)
      {
        assert details[i] == prefix[i];
      }
    }
  }

  /** `details[i]` is the last detail whose location is `key`. */
  predicate LastWithLocation(details: seq<ErrorDetail>, key: string, i: int) {
    && 0 <= i < |details|
    && JoinLoc(details[i].loc) == key
    && forall j :: i < j < |details| ==> JoinLoc(details[j].loc) != key
  }

  /** The message stored under a location is that of the last detail with
      that location. */
  lemma {:induction false} LocationMapLast(details: seq<ErrorDetail>, key: string)
    requires key in LocationMap(details)
    ensures exists i :: LastWithLocation(details, key, i) && LocationMap(details)[key] == details[i].msg
  {
    var n := |details| - 1;
    var prefix := details[..n];
    if JoinLoc(details[n].loc) == key {
      assert LastWithLocation(details, key, n);
    } else {
      assert key in LocationMap(prefix);
      LocationMapLast(prefix, key);
      var i :| LastWithLocation(prefix, key, i) && LocationMap(prefix)[key] == prefix[i].msg;
      forall j | i < j < |details|
        ensures JoinLoc(details[j].loc) != key
      {
        if j < n {
          assert details[j] == prefix[j];
        }
      }
      assert LastWithLocation(details, key, i);
    }
  }

  /** The error `handle_validation_error` returns for a list of details. */
  function ValidationFailure(details: seq<ErrorDetail>): (e: McpError)
    ensures e.Message() == "Validation error" && e.StatusCode() == 422 && e.ValidationError?
    ensures e.validationErrors == LocationMap(details)
  {
    NewValidationError("Validation error", Some(LocationMap(details)))
  }

  /** `handle_validation_error`, with its loop over the details. */
  method HandleValidationError(details: seq<ErrorDetail>) returns (e: McpError)
    ensures e == ValidationFailure(details)
  {
    var errors: map<string, string> := map[];
    for i := 0 to |details|
      invariant errors == LocationMap(details[..i])
    {
      assert details[..i + 1][..i] == details[..i];
      errors := errors[JoinLoc(details[i].loc) := details[i].msg];
    }
    assert details[..|details|] == details;
    e := NewValidationError("Validation error", Some(errors));
  }

  // ---------------------------------------------------------------- HTTP errors

  /** `handle_http_error`: 400, 401, 422 and 429 pick their classes and keep
      the detail as the message; 502 picks the dependency class, whose
      constructor then fails for want of a dependency name; every other code
      gives a plain MCP error with status 400. */
  function HandleHttpError(statusCode: int, detail: string): (r: Outcome<McpError, Exception>)
    ensures statusCode == 502 <==> r.Raised?
    ensures r.Raised? ==> r.error == Foreign(Plain, MissingDependencyName)
    ensures r.Returned? ==> r.value.Message() == detail
    ensures r.Returned? && statusCode in {400, 401, 422, 429} ==> r.value.StatusCode() == statusCode
    ensures r.Returned? && statusCode !in {400, 401, 422, 429} ==>
      r.value.ErrorType() == "MCPError" && r.value.StatusCode() == 400
  {
    if statusCode == 400 then Returned(ToolError(detail, None))
    else if statusCode == 401 then Returned(NewAuthenticationError(Some(detail)))
    else if statusCode == 422 then Returned(NewValidationError(detail, None))
    else if statusCode == 429 then Returned(NewRateLimitError(Some(detail)))
    else if statusCode == 502 then Raised(Foreign(Plain, MissingDependencyName))
    else Returned(NewBaseError(detail))
  }

  /** Converting an error of a mapped class back through `handle_http_error`
      gives the same error again, as long as it carries nothing the mapping
      cannot reproduce (a tool name, validation details). A plain MCP error
      does not survive the trip: it comes back as a tool error or with
      status 400. */
  lemma HttpErrorRoundTrip(e: McpError)
    requires e.ToolError? ==> e.toolName.None?
    requires e.ValidationError? ==> e.validationErrors == map[]
    requires !e.DependencyError? && !e.BaseError?
    ensures HandleHttpError(e.StatusCode(), e.Message()) == Returned(e)
  {
  }

  // ---------------------------------------------------------------- responses

  /** The JSON body of an error response: `error` and `type` are always
      present, the other keys only when the error supplies them. */
  datatype ErrorResponse = ErrorResponse(
    error: string,
    kind: string,
    validationErrors: Option<map<string, string>>,
    tool: Option<string>,
    dependency: Option<string>)

  /** `format_error_response` */
  function FormatErrorResponse(e: Exception): (r: ErrorResponse)
    ensures e.Mcp? ==> r.error == e.error.Message() && r.kind == e.error.ErrorType()
    ensures e.Foreign? ==> r == ErrorResponse(e.text, "ServerError", None, None, None)
    ensures r.validationErrors.Some? <==>
      e.Mcp? && e.error.ValidationError? && |e.error.validationErrors| > 0
    ensures r.validationErrors.Some? ==> r.validationErrors.value == e.error.validationErrors
    ensures r.tool.Some? <==>
      e.Mcp? && e.error.ToolError? && e.error.toolName.Some? && |e.error.toolName.value| > 0
    ensures r.tool.Some? ==> r.tool.value == e.error.toolName.value
    ensures r.dependency.Some? <==> e.Mcp? && e.error.DependencyError?
    ensures r.dependency.Some? ==> r.dependency.value == e.error.dependencyName
  {
    match e
    case Foreign(_, text) => ErrorResponse(text, "ServerError", None, None, None)
    case Mcp(err) =>
      var base := ErrorResponse(err.Message(), err.ErrorType(), None, None, None);
      match err
      case ValidationError(_, v) =>
        if |v| > 0 then base.(validationErrors := Some(v)) else base
      case ToolError(_, name) =>
        if name.Some? && |name.value| > 0 then base.(tool := Some(name.value)) else base
      case DependencyError(_, dep) =>
        base.(dependency := Some(dep))
      case _ => base
  }

  // ---------------------------------------------------------------- exception mapping

  /** `handle_mcp_errors`: a result passes through; a pydantic validation
      error becomes an MCP validation error; an HTTP exception goes through
      `handle_http_error`; an MCP error is re-raised unchanged; any other
      `Exception` becomes a tool error carrying `str(e)`; a `BaseException`
      that is not an `Exception` is not caught at all. */
  function HandleMcpErrors<T>(call: Outcome<T, Exception>): (r: Outcome<T, Exception>)
    ensures call.Returned? ==> r == call
    ensures call.Raised? && call.error.Mcp? ==> r == call
    ensures call.Raised? && call.error.Foreign? && call.error.kind.Plain? ==>
      r == Raised(Mcp(ToolError(call.error.text, None)))
    ensures call.Raised? && call.error.Foreign? && call.error.kind.PydanticValidation? ==>
      r == Raised(Mcp(ValidationFailure(call.error.kind.details)))
    ensures call.Raised? && call.error.Foreign? && call.error.kind.HttpException? ==>
      var converted := HandleHttpError(call.error.kind.statusCode, call.error.kind.detail);
      r == if converted.Returned? then Raised(Mcp(converted.value)) else Raised(converted.error)
    ensures call.Raised? && call.error.Foreign? && call.error.kind.NotAnException? ==> r == call
    ensures call.Raised? ==> r.Raised?
  {
    match call
    case Returned(_) => call
    case Raised(Mcp(_)) => call
    case Raised(Foreign(PydanticValidation(details), _)) => Raised(Mcp(ValidationFailure(details)))
    case Raised(Foreign(HttpException(code, detail), _)) =>
      // a TypeError raised inside the `except HTTPException` clause is seen by no later clause
      (match HandleHttpError(code, detail)
       case Returned(err) => Raised(Mcp(err))
       case Raised(typeError) => Raised(typeError))
    case Raised(Foreign(Plain(), text)) => Raised(Mcp(ToolError(text, None)))
    case Raised(Foreign(NotAnException(), _)) => call
  }

  /** Every exception leaving the wrapper is an MCP error, except the
      TypeError of an HTTP 502 that `handle_http_error` cannot convert and
      a `BaseException` the wrapper does not catch. */
  lemma HandledErrorsAreMcp<T>(call: Outcome<T, Exception>)
    requires call.Raised?
    ensures HandleMcpErrors(call).error.Mcp? <==>
      !(call.error.Foreign? && call.error.kind.HttpException? && call.error.kind.statusCode == 502) &&
      !(call.error.Foreign? && call.error.kind.NotAnException?)
  {
  }

  /** Wrapping a wrapped tool again changes nothing, except that the escaped
      TypeError of an HTTP 502 is then turned into a tool error. */
  lemma HandleMcpErrorsTwice<T>(call: Outcome<T, Exception>)
    ensures HandleMcpErrors(HandleMcpErrors(call)) ==
      if HandleMcpErrors(call) == Raised(Foreign(Plain, MissingDependencyName))
      then Raised(Mcp(ToolError(MissingDependencyName, None)))
      else HandleMcpErrors(call)
  {
  }
}
