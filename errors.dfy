/** `middleware/errorHandler.ts`: the error → HTTP response mapping. */
module ErrorHandling {
  import opened Common

  /** The error handed to `next(error)`: every field may be absent. */
  datatype ApiError = ApiError(message: Option<string>, statusCode: Option<int>, code: Option<string>, stack: Option<string>)

  /** The response: status, `error` message, and `stack` when it is included. */
  datatype ErrorReply = ErrorReply(status: int, error: string, stack: Option<string>)

  const UniqueViolation := "23505"
  const ForeignKeyViolation := "23503"
  const CheckViolation := "23514"

  /** The PostgreSQL error codes the handler recognises. */
  predicate KnownCode(code: Option<string>) {
    code == Some(UniqueViolation) || code == Some(ForeignKeyViolation) || code == Some(CheckViolation)
  }

  /** A present, non-empty string (JavaScript truthiness). */
  predicate Truthy(s: Option<string>) { s.Some? && s.value != "" }

  /** `errorHandler`, with `process.env.NODE_ENV` as a parameter. */
  method HandleError(err: ApiError, nodeEnv: Option<string>) returns (reply: ErrorReply)
    ensures err.code == Some(UniqueViolation) ==> reply.status == 409
    ensures err.code == Some(ForeignKeyViolation) || err.code == Some(CheckViolation) ==> reply.status == 400
    ensures !KnownCode(err.code) ==>
      reply.status == (if err.statusCode.Some? && err.statusCode.value != 0 then err.statusCode.value else 500)
    ensures nodeEnv == Some("production") && reply.status >= 500 ==> reply.error == "Internal Server Error"
    ensures !(nodeEnv == Some("production") && reply.status >= 500) ==>
      reply.error ==
        if err.code == Some(UniqueViolation) then "Resource already exists"
        else if err.code == Some(ForeignKeyViolation) then "Invalid reference"
        else if err.code == Some(CheckViolation) then "Invalid data"
        else if Truthy(err.message) then err.message.value
        else "Internal Server Error"
    ensures reply.stack == if nodeEnv == Some("development") then err.stack else None
  {
    var statusCode := if err.statusCode.Some? && err.statusCode.value != 0 then err.statusCode.value else 500;
    var message := if Truthy(err.message) then err.message.value else "Internal Server Error";

    if err.code == Some(UniqueViolation) {
      statusCode := 409;
      message := "Resource already exists";
    } else if err.code == Some(ForeignKeyViolation) {
      statusCode := 400;
      message := "Invalid reference";
    } else if err.code == Some(CheckViolation) {
      statusCode := 400;
      message := "Invalid data";
    }

    if nodeEnv == Some("production") && statusCode >= 500 {
      message := "Internal Server Error";
    }

    var stack := if nodeEnv == Some("development") then err.stack else None;
    reply := ErrorReply(statusCode, message, stack);
  }
}
