/** `middleware/validation.ts`: `validateBody`, `validateParams` and `validateQuery`. The schema
    is a parameter: what `schema.parse` gives for an input. */
module Validation {
  import opened Common
  import opened Http

  /** Which part of the request a validator replaces. */
  datatype Part = Body | Params | Query

  /** `schema.parse(input)`: the parsed value, a `ZodError` with its issues, or another throw. */
  datatype ParseOutcome = Parsed(value: Json) | Invalid(issues: seq<Json>) | Crashed(error: string)

  /** `{ error: 'Validation failed', details }`. */
  function ValidationFailedBody(issues: seq<Json>): Json {
    JObj(map["error" := JStr("Validation failed"), "details" := JArr(issues)])
  }

  /** The part of the exchange a validator reads. */
  function PartOf(ex: Exchange, part: Part): Json
    reads ex
  {
    match part
    case Body => ex.body
    case Params => ex.params
    case Query => ex.query
  }

  /** A validator run on an exchange: on success the part is replaced by the parsed value and
      `next()` is called; on a schema error 400 is sent and `next` is not called; any other
      error is passed to `next(error)`. The other parts, the user and the header are untouched. */
  method Validate(ex: Exchange, part: Part, parse: Json -> ParseOutcome)
    modifies ex
    ensures ex.user == old(ex.user) && ex.authorization == old(ex.authorization)
    ensures part != Body ==> ex.body == old(ex.body)
    ensures part != Params ==> ex.params == old(ex.params)
    ensures part != Query ==> ex.query == old(ex.query)
    ensures var outcome := parse(old(PartOf(ex, part)));
      match outcome
      case Parsed(v) =>
        PartOf(ex, part) == v && ex.nextCalls == old(ex.nextCalls) + [Continue] && ex.reply == old(ex.reply)
      case Invalid(issues) =>
        PartOf(ex, part) == old(PartOf(ex, part)) && ex.nextCalls == old(ex.nextCalls) &&
        ex.reply == Some(Reply(400, ValidationFailedBody(issues)))
      case Crashed(e) =>
        PartOf(ex, part) == old(PartOf(ex, part)) && ex.nextCalls == old(ex.nextCalls) + [WithError(e)] &&
        ex.reply == old(ex.reply)
  {
    var outcome := parse(PartOf(ex, part));
    match outcome
    case Parsed(v) =>
      match part {
        case Body => ex.body := v;
        case Params => ex.params := v;
        case Query => ex.query := v;
      }
      ex.Next(Continue);
    case Invalid(issues) =>
      ex.Send(400, ValidationFailedBody(issues));
    case Crashed(e) =>
      ex.Next(WithError(e));
  }
}
