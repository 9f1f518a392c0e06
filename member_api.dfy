/** `MemberApiController`: each handler calls one membership operation of
    `CirclesAdminService` inside a `try` block; a caught exception becomes a `{message}` body
    with the handler's failure status. The controller has no state of its own. */
module MemberApi {
  import opened Wrappers
  import opened Format
  import opened Http

  const MEMBER_REMOVED := "Member removed"
  const LEVEL_UPDATED := "Level updated"

  /** `index($circleId)`: the circle's members, or 404 with the exception message. */
  function Index(circleId: string, getMembers: string -> Result<seq<MemberView>>): (resp: Response)
    ensures var outcome := getMembers(circleId);
            && Reports(MemberIndex, FailureOf(outcome), resp)
            && (outcome.Ok? ==> resp.body == MembersBody(outcome.value))
  {
    var outcome := getMembers(circleId);
    if outcome.Ok? then DataResponse(MembersBody(outcome.value))
    else Response(Message(outcome.message), STATUS_NOT_FOUND)
  }

  /** `add($circleId, $userId)`: 201 with the new member, or 400. */
  function Add(circleId: string, userId: string, addMember: (string, string) -> Result<MemberView>): (resp: Response)
    ensures var outcome := addMember(circleId, userId);
            && Reports(MemberAdd, FailureOf(outcome), resp)
            && (outcome.Ok? ==> resp.body == MemberBody(outcome.value))
  {
    var outcome := addMember(circleId, userId);
    if outcome.Ok? then Response(MemberBody(outcome.value), STATUS_CREATED)
    else Response(Message(outcome.message), STATUS_BAD_REQUEST)
  }

  /** `remove($circleId, $memberId)`: the fixed message "Member removed", or 400. */
  function Remove(circleId: string, memberId: string, removeMember: (string, string) -> Result<()>): (resp: Response)
    ensures var outcome := removeMember(circleId, memberId);
            && Reports(MemberRemove, FailureOf(outcome), resp)
            && (outcome.Ok? ==> resp.body == Message(MEMBER_REMOVED))
  {
    var outcome := removeMember(circleId, memberId);
    if outcome.Ok? then DataResponse(Message(MEMBER_REMOVED))
    else Response(Message(outcome.message), STATUS_BAD_REQUEST)
  }

  /** `setLevel($circleId, $memberId, $level)`: the level goes to the service as given, with no
      range check; the fixed message "Level updated", or 400. */
  function SetLevel(circleId: string, memberId: string, level: int,
                    setMemberLevel: (string, string, int) -> Result<()>): (resp: Response)
    ensures var outcome := setMemberLevel(circleId, memberId, level);
            && Reports(MemberSetLevel, FailureOf(outcome), resp)
            && (outcome.Ok? ==> resp.body == Message(LEVEL_UPDATED))
  {
    var outcome := setMemberLevel(circleId, memberId, level);
    if outcome.Ok? then DataResponse(Message(LEVEL_UPDATED))
    else Response(Message(outcome.message), STATUS_BAD_REQUEST)
  }

  /** A client recovers the service's `\Exception` message, if any, from every member handler's
      response. */
  lemma MemberHandlersRecoverable(circleId: string, memberId: string, userId: string, level: int,
                                  getMembers: string -> Result<seq<MemberView>>,
                                  addMember: (string, string) -> Result<MemberView>,
                                  removeMember: (string, string) -> Result<()>,
                                  setMemberLevel: (string, string, int) -> Result<()>)
    ensures ReadFailure(MemberIndex, Index(circleId, getMembers)) == FailureOf(getMembers(circleId))
    ensures ReadFailure(MemberAdd, Add(circleId, userId, addMember)) == FailureOf(addMember(circleId, userId))
    ensures ReadFailure(MemberRemove, Remove(circleId, memberId, removeMember)) == FailureOf(removeMember(circleId, memberId))
    ensures ReadFailure(MemberSetLevel, SetLevel(circleId, memberId, level, setMemberLevel))
            == FailureOf(setMemberLevel(circleId, memberId, level))
  {
    ReportsRecoverable(MemberIndex, FailureOf(getMembers(circleId)), Index(circleId, getMembers));
    ReportsRecoverable(MemberAdd, FailureOf(addMember(circleId, userId)), Add(circleId, userId, addMember));
    ReportsRecoverable(MemberRemove, FailureOf(removeMember(circleId, memberId)), Remove(circleId, memberId, removeMember));
    ReportsRecoverable(MemberSetLevel, FailureOf(setMemberLevel(circleId, memberId, level)),
                       SetLevel(circleId, memberId, level, setMemberLevel));
  }
}
