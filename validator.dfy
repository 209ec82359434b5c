/** `parseOrThrow`: a schema's outcome becomes the parsed value or a ValidationError. */
module Validator {
  import opened Wrappers
  import opened Errors

  /** One failed constraint of a schema; its message may be absent. */
  datatype Issue = Issue(message: Option<string>)

  /** What `schema.safeParse(data)` returns. */
  datatype SafeParseResult<+T> = ParseSuccess(data: T) | ParseFailure(issues: seq<Issue>)

  /** `issues[0]?.message ?? fallbackMessage` */
  function FirstIssueMessage(issues: seq<Issue>, fallbackMessage: string): (m: string)
    ensures |issues| > 0 && issues[0].message.Some? ==> m == issues[0].message.value
    ensures |issues| == 0 || issues[0].message.None? ==> m == fallbackMessage
  {
    if |issues| == 0 then fallbackMessage else issues[0].message.GetOr(fallbackMessage)
  }

  /** `parseOrThrow(schema, data, fallbackMessage)`: the parsed value, or the ValidationError it throws. */
  function ParseOrThrow<D, T>(schema: D -> SafeParseResult<T>, data: D, fallbackMessage: string): (r: Result<T, AppError>)
    ensures r.Success? <==> schema(data).ParseSuccess?
    // the schema's output (trimmed, coerced), not the raw input
    ensures r.Success? ==> r.value == schema(data).data
    ensures r.Failure? ==>
      && Consistent(r.error) && r.error.IsValidationError() && r.error.statusCode == 400
      && r.error.message == FirstIssueMessage(schema(data).issues, fallbackMessage)
      && r.error.details == None
  {
    var parsed := schema(data);
    if !parsed.ParseSuccess? then
      Failure(NewValidationError(FirstIssueMessage(parsed.issues, fallbackMessage), None))
    else
      Success(parsed.data)
  }
}
