/** `CircleApiController`: each handler calls one operation of `CirclesAdminService` inside a
    `try` block and turns its outcome into a response; a caught exception becomes a
    `{message}` body with the handler's failure status. The service operation is a
    parameter of each handler, so the arguments the handler passes to it are visible. */
module CircleApi {
  import opened Wrappers
  import opened Format
  import opened Http

  const MISSING_FIELDS := "Provide at least one of: name, description"
  const CIRCLE_DELETED := "Circle deleted"

  /** The controller's only state: the acting user, set once by the constructor. */
  datatype CircleApiController = CircleApiController(userId: string)

  /** The constructor: `$userId ?? ''`. */
  function NewController(userId: Option<string>): (c: CircleApiController)
    ensures userId.Some? ==> c.userId == userId.value
    ensures userId.None? ==> c.userId == ""
  {
    CircleApiController(if userId.Some? then userId.value else "")
  }

  /** PHP's truth value of a string, as `?:` tests it: the empty string and "0" are false,
      every other string is true, "00" and " 0" included. */
  predicate Truthy(s: string): (t: bool)
    ensures !t <==> s == "" || s == "0"
    ensures |s| > 1 ==> t
  {
    s != "" && s != "0"
  }

  /** `$owner ?: $this->userId`. */
  function OwnerUserId(c: CircleApiController, owner: string): (id: string)
    ensures Truthy(owner) ==> id == owner
    ensures !Truthy(owner) ==> id == c.userId
  {
    if owner != "" && owner != "0" then owner else c.userId
  }

  /** The owner handed to the service is never a falsy string unless the acting user is. */
  lemma OwnerFallsBack(c: CircleApiController, owner: string)
    ensures !Truthy(OwnerUserId(c, owner)) ==> OwnerUserId(c, owner) == c.userId && !Truthy(c.userId)
  {
  }

  /** `index()`: the listing, or 500 with the exception message. */
  function Index(listAll: () -> Result<seq<CircleView>>): (resp: Response)
    ensures var outcome := listAll();
            && Reports(CircleIndex, FailureOf(outcome), resp)
            && (outcome.Ok? ==> resp.body == CirclesBody(outcome.value))
  {
    var outcome := listAll();
    if outcome.Ok? then DataResponse(CirclesBody(outcome.value))
    else Response(Message(outcome.message), STATUS_INTERNAL_SERVER_ERROR)
  }

  /** `show($circleId)`: the circle's detail, or 404 with the exception message. */
  function Show(circleId: string, getCircle: string -> Result<CircleDetail>): (resp: Response)
    ensures var outcome := getCircle(circleId);
            && Reports(CircleShow, FailureOf(outcome), resp)
            && (outcome.Ok? ==> resp.body == DetailBody(outcome.value))
  {
    var outcome := getCircle(circleId);
    if outcome.Ok? then DataResponse(DetailBody(outcome.value))
    else Response(Message(outcome.message), STATUS_NOT_FOUND)
  }

  /** `create($name, $owner = '')`: no description is passed; 201 with the new circle, or 400. */
  function Create(c: CircleApiController, name: string, owner: string,
                  createCircle: (string, string, Option<string>) -> Result<DescribedCircle>): (resp: Response)
    ensures var outcome := createCircle(name, OwnerUserId(c, owner), None);
            && Reports(CircleCreate, FailureOf(outcome), resp)
            && (outcome.Ok? ==> resp.body == CircleBody(outcome.value))
  {
    var ownerUserId := OwnerUserId(c, owner);
    var outcome := createCircle(name, ownerUserId, None);
    if outcome.Ok? then Response(CircleBody(outcome.value), STATUS_CREATED)
    else Response(Message(outcome.message), STATUS_BAD_REQUEST)
  }

  /** `update($circleId, $name = null, $description = null)`: a request with neither field is
      refused before the service is called; otherwise the updated circle, or 400. */
  function Update(circleId: string, name: Option<string>, description: Option<string>,
                  updateCircle: (string, Option<string>, Option<string>) -> Result<DescribedCircle>): (resp: Response)
    ensures name.None? && description.None? ==> Reports(CircleUpdate, Some(MISSING_FIELDS), resp)
    ensures name.Some? || description.Some? ==>
              var outcome := updateCircle(circleId, name, description);
              && Reports(CircleUpdate, FailureOf(outcome), resp)
              && (outcome.Ok? ==> resp.body == CircleBody(outcome.value))
  {
    if name.None? && description.None? then
      Response(Message(MISSING_FIELDS), STATUS_BAD_REQUEST)
    else
      var outcome := updateCircle(circleId, name, description);
      if outcome.Ok? then DataResponse(CircleBody(outcome.value))
      else Response(Message(outcome.message), STATUS_BAD_REQUEST)
  }

  /** The guard does not depend on the service: a request with neither field is answered the
      same whatever the service would do. */
  lemma UpdateGuardSkipsService(circleId: string,
                                f: (string, Option<string>, Option<string>) -> Result<DescribedCircle>,
                                g: (string, Option<string>, Option<string>) -> Result<DescribedCircle>)
    ensures Update(circleId, None, None, f) == Update(circleId, None, None, g)
    ensures ReadFailure(CircleUpdate, Update(circleId, None, None, f)) == Some(MISSING_FIELDS)
  {
    ReportsRecoverable(CircleUpdate, Some(MISSING_FIELDS), Update(circleId, None, None, f));
  }

  /** `destroy($circleId)`: the fixed message "Circle deleted", or 400. */
  function Destroy(circleId: string, destroyCircle: string -> Result<()>): (resp: Response)
    ensures var outcome := destroyCircle(circleId);
            && Reports(CircleDestroy, FailureOf(outcome), resp)
            && (outcome.Ok? ==> resp.body == Message(CIRCLE_DELETED))
  {
    var outcome := destroyCircle(circleId);
    if outcome.Ok? then DataResponse(Message(CIRCLE_DELETED))
    else Response(Message(outcome.message), STATUS_BAD_REQUEST)
  }

  /** A client tells a deletion from a failure whose message reads "Circle deleted". */
  lemma DestroyRecoverable(circleId: string, destroyCircle: string -> Result<()>)
    ensures ReadFailure(CircleDestroy, Destroy(circleId, destroyCircle)) == FailureOf(destroyCircle(circleId))
  {
    ReportsRecoverable(CircleDestroy, FailureOf(destroyCircle(circleId)), Destroy(circleId, destroyCircle));
  }
}
