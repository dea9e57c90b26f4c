/** What the route handlers receive and return: a JSON request body that parses or does not,
    and a response made of an HTTP status code and a body. */
module Api {
  import opened Validation

  /** The outcome of `await request.json()`: a JSON object, a JSON value that is not an
      object (`null`, or a number, a string, a boolean or an array), or the message of the
      parse error it throws. */
  datatype RequestBody = Parsed(fields: Fields) | NotObject(isNull: bool) | Malformed(reason: string)

  /** The one issue zod reports for a value that is not an object: `invalid_type` at the
      root, whose path is empty. */
  const NotObjectIssue := Issue("", InvalidType)

  /** The `error` member of a failure body built from a caught exception: an exception's own
      message, or the message of a `ZodError`, which renders its issue list. */
  datatype ErrorValue = Text(text: string) | IssueList(issues: seq<Issue>)

  /** `NextResponse.json(body, { status })`; the status defaults to 200. */
  datatype Response<B> = Response(status: int, body: B)

  predicate IsOk(status: int) {
    200 <= status <= 299
  }
}
