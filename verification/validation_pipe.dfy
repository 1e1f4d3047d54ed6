/** The validation pipe placed in front of request bodies: it returns what the
    schema parsed, or fails with a Bad Request whose message lists the
    schema's issues. */
module ValidationPipe {
  import opened Outcomes
  import opened Strings
  import opened Http

  /** What `schema.parse(value)` does: return the parsed value, throw a schema
      error carrying its issue messages in order, or throw anything else. */
  datatype ParseOutcome<T> = Parsed(value: T) | SchemaIssues(messages: seq<string>) | OtherError

  const FailurePrefix := "Validation failed: "
  const InvalidInput := "Invalid input"

  /** `ZodValidationPipe.transform`. */
  function Transform<T>(outcome: ParseOutcome<T>): (r: Result<T, BadRequest>)
    ensures r.Ok? <==> outcome.Parsed?
    ensures r.Ok? ==> r.value == outcome.value
    ensures outcome.SchemaIssues? ==>
              r.Err? && |r.error.message| >= |FailurePrefix|
              && r.error.message[..|FailurePrefix|] == FailurePrefix
              && r.error.message[|FailurePrefix|..] == Join(outcome.messages, ", ")
    ensures outcome.OtherError? ==> r == Err(BadRequest(InvalidInput))
  {
    match outcome
    case Parsed(v) => Ok(v)
    case SchemaIssues(ms) => Err(BadRequest(FailurePrefix + Join(ms, ", ")))
    case OtherError => Err(BadRequest(InvalidInput))
  }

  /** A schema failure with a single issue reports exactly that issue. */
  lemma SingleIssueMessage<T>(message: string)
    ensures Transform<T>(SchemaIssues([message])) == Err(BadRequest("Validation failed: " + message))
  {
  }
}
