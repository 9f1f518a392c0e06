/** The OCS responses the controllers return: a `DataResponse` is a body and a status, the
    status defaulting to 200. The handler table gives, for each route, the status of a
    success and the status of a caught exception. */
module Http {
  import opened Wrappers
  import opened Format

  const STATUS_OK := 200
  const STATUS_CREATED := 201
  const STATUS_BAD_REQUEST := 400
  const STATUS_NOT_FOUND := 404
  const STATUS_INTERNAL_SERVER_ERROR := 500

  /** The data of a response. */
  datatype Body =
    | Message(message: string)
    | CirclesBody(circles: seq<CircleView>)
    | DetailBody(detail: CircleDetail)
    | CircleBody(described: DescribedCircle)
    | MembersBody(members: seq<MemberView>)
    | MemberBody(member: MemberView)

  datatype Response = Response(body: Body, status: int)

  /** `new DataResponse($data)`: the default status. */
  function DataResponse(body: Body): (resp: Response)
    ensures resp.body == body && resp.status == STATUS_OK
  {
    Response(body, STATUS_OK)
  }

  /** The handlers of the two controllers, as the route table names them. */
  datatype Handler =
    | CircleIndex | CircleShow | CircleCreate | CircleUpdate | CircleDestroy
    | MemberIndex | MemberAdd | MemberRemove | MemberSetLevel

  /** The status of a handler's successful response. */
  function SuccessStatus(h: Handler): int {
    match h
    case CircleCreate | MemberAdd => STATUS_CREATED
    case _ => STATUS_OK
  }

  /** The status of the response a handler builds from a caught exception. */
  function FailureStatus(h: Handler): int {
    match h
    case CircleIndex => STATUS_INTERNAL_SERVER_ERROR
    case CircleShow | MemberIndex => STATUS_NOT_FOUND
    case _ => STATUS_BAD_REQUEST
  }

  /** The exception message of a failed outcome. */
  function FailureOf<T>(outcome: Result<T>): (failure: Option<string>)
    ensures failure.Some? <==> outcome.Fail?
    ensures outcome.Fail? ==> failure.value == outcome.message
  {
    if outcome.Fail? then Some(outcome.message) else None
  }

  /** `resp` is what handler `h` answers when the service call failed with `failure`, or
      succeeded when `failure` is None: the table's status, and the bare exception message
      as the body of a failure. */
  predicate Reports(h: Handler, failure: Option<string>, resp: Response) {
    && resp.status == (if failure.Some? then FailureStatus(h) else SuccessStatus(h))
    && (failure.Some? ==> resp.body == Message(failure.value))
  }

  /** What a client reads off a response of handler `h`: the exception message when the
      status is the handler's failure status, None otherwise. */
  function ReadFailure(h: Handler, resp: Response): (failure: Option<string>)
    ensures failure.Some? ==> resp.status == FailureStatus(h) && resp.body == Message(failure.value)
  {
    if resp.status == FailureStatus(h) && resp.body.Message? then Some(resp.body.message) else None
  }

  /** No handler answers a success with its failure status, so a client recovers exactly the
      outcome's failure from any response: no `\Exception` is rethrown, and no message is lost.
      (An `\Error` is not caught by the handlers and is outside this model.) */
  lemma ReportsRecoverable(h: Handler, failure: Option<string>, resp: Response)
    requires Reports(h, failure, resp)
    ensures ReadFailure(h, resp) == failure
  {
    assert SuccessStatus(h) != FailureStatus(h) by {
      match h
      case CircleCreate | MemberAdd =>
      case _ =>
    }
  }
}
