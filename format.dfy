/** The wire representation of circles and members produced by `CirclesAdminService`:
    the label resolution for member levels and user types, the flat record projections
    `formatCircle` and `formatMember`, and the loops that format a whole list. */
module Format {
  import opened Wrappers
  import opened Text
  import opened Engine

  datatype CircleView = CircleView(
    id: string,
    name: string,
    owner: Option<string>,
    memberCount: nat,
    config: int,
    source: int)

  datatype MemberView = MemberView(
    id: string,
    singleId: string,
    userId: string,
    displayName: string,
    level: int,
    levelName: string,
    status: string,
    userType: int,
    userTypeName: string)

  /** A circle view with its description attached (`createCircle`, `updateCircle`). */
  datatype DescribedCircle = DescribedCircle(circle: CircleView, description: string)

  /** A circle view with its description and its formatted members (`getCircle`). */
  datatype CircleDetail = CircleDetail(circle: CircleView, description: string, members: seq<MemberView>)

  const UNKNOWN_PREFIX := "Unknown ("
  const UNKNOWN_SUFFIX := ")"

  /** The label of a code no table knows: `'Unknown (' . $n . ')'`, so the code is framed by
      the prefix and the suffix (`UnknownCodeOfLabel` reads it back). */
  function UnknownLabel(code: int): (text: string)
    ensures |text| > |UNKNOWN_PREFIX| + |UNKNOWN_SUFFIX|
    ensures text[..|UNKNOWN_PREFIX|] == UNKNOWN_PREFIX
    ensures text[|text| - |UNKNOWN_SUFFIX|..] == UNKNOWN_SUFFIX
  {
    UNKNOWN_PREFIX + IntToString(code) + UNKNOWN_SUFFIX
  }

  /** A string that starts with the prefix and ends with the suffix is the two around its middle. */
  lemma LabelParts(text: string)
    requires |text| > |UNKNOWN_PREFIX| + |UNKNOWN_SUFFIX|
    requires text[..|UNKNOWN_PREFIX|] == UNKNOWN_PREFIX
    requires text[|text| - |UNKNOWN_SUFFIX|..] == UNKNOWN_SUFFIX
    ensures text == UNKNOWN_PREFIX + text[|UNKNOWN_PREFIX|..|text| - |UNKNOWN_SUFFIX|] + UNKNOWN_SUFFIX
  {
    var middle := text[|UNKNOWN_PREFIX|..|text| - |UNKNOWN_SUFFIX|];
    assert text == text[..|UNKNOWN_PREFIX|] + middle + text[|text| - |UNKNOWN_SUFFIX|..];
  }

  /** Reads back the code of an `UnknownLabel`; `None` for any other string. */
  function UnknownCode(text: string): (code: Option<int>)
    ensures code.Some? ==> UnknownLabel(code.value) == text
  {
    if |text| > |UNKNOWN_PREFIX| + |UNKNOWN_SUFFIX|
       && text[..|UNKNOWN_PREFIX|] == UNKNOWN_PREFIX
       && text[|text| - |UNKNOWN_SUFFIX|..] == UNKNOWN_SUFFIX
    then
      var digits := text[|UNKNOWN_PREFIX|..|text| - |UNKNOWN_SUFFIX|];
      var n := ParseInt(digits);
      if n.Some? && IntToString(n.value) == digits then
        LabelParts(text);
        n
      else None
    else None
  }

  /** An unknown code survives its label: the fallback is a lossless rendering. */
  lemma UnknownCodeOfLabel(code: int)
    ensures UnknownCode(UnknownLabel(code)) == Some(code)
  {
    var text := UnknownLabel(code);
    assert text[|UNKNOWN_PREFIX|..|text| - |UNKNOWN_SUFFIX|] == IntToString(code);
    ParseIntOfIntToString(code);
  }

  predicate IsKnownLevel(level: int) {
    level == LEVEL_MEMBER || level == LEVEL_MODERATOR || level == LEVEL_ADMIN || level == LEVEL_OWNER
  }

  /** The name of a member level; never fails. */
  function LevelName(level: int): (name: string)
    ensures level == LEVEL_MEMBER <==> name == "Member"
    ensures level == LEVEL_MODERATOR <==> name == "Moderator"
    ensures level == LEVEL_ADMIN <==> name == "Admin"
    ensures level == LEVEL_OWNER <==> name == "Owner"
    ensures !IsKnownLevel(level) <==> name == UnknownLabel(level)
  {
    match level
    case 1 => "Member"
    case 4 => "Moderator"
    case 8 => "Admin"
    case 9 => "Owner"
    case _ => UnknownLabel(level)
  }

  /** The level a level name stands for, `None` for a string `LevelName` never produces. */
  function LevelOfName(name: string): (level: Option<int>)
    ensures level.Some? ==> LevelName(level.value) == name
  {
    if name == "Member" then Some(LEVEL_MEMBER)
    else if name == "Moderator" then Some(LEVEL_MODERATOR)
    else if name == "Admin" then Some(LEVEL_ADMIN)
    else if name == "Owner" then Some(LEVEL_OWNER)
    else
      var code := UnknownCode(name);
      if code.Some? && !IsKnownLevel(code.value) then code else None
  }

  /** Every level, known or not, is recovered from its name; so no two levels share one. */
  lemma LevelNameRoundTrip(level: int)
    ensures LevelOfName(LevelName(level)) == Some(level)
  {
    if !IsKnownLevel(level) {
      UnknownCodeOfLabel(level);
    }
  }

  predicate IsKnownUserType(userType: int) {
    || userType == TYPE_SINGLE || userType == TYPE_USER || userType == TYPE_GROUP
    || userType == TYPE_MAIL || userType == TYPE_CONTACT || userType == TYPE_CIRCLE
    || userType == TYPE_APP
  }

  /** The name of a user type; never fails. */
  function UserTypeName(userType: int): (name: string)
    ensures userType == TYPE_SINGLE <==> name == "Single"
    ensures userType == TYPE_USER <==> name == "User"
    ensures userType == TYPE_GROUP <==> name == "Group"
    ensures userType == TYPE_MAIL <==> name == "Mail"
    ensures userType == TYPE_CONTACT <==> name == "Contact"
    ensures userType == TYPE_CIRCLE <==> name == "Circle"
    ensures userType == TYPE_APP <==> name == "App"
    ensures !IsKnownUserType(userType) <==> name == UnknownLabel(userType)
  {
    match userType
    case 0 => "Single"
    case 1 => "User"
    case 2 => "Group"
    case 4 => "Mail"
    case 8 => "Contact"
    case 16 => "Circle"
    case 10000 => "App"
    case _ => UnknownLabel(userType)
  }

  /** The user type a user-type name stands for, `None` for a string `UserTypeName` never produces. */
  function UserTypeOfName(name: string): (userType: Option<int>)
    ensures userType.Some? ==> UserTypeName(userType.value) == name
  {
    if name == "Single" then Some(TYPE_SINGLE)
    else if name == "User" then Some(TYPE_USER)
    else if name == "Group" then Some(TYPE_GROUP)
    else if name == "Mail" then Some(TYPE_MAIL)
    else if name == "Contact" then Some(TYPE_CONTACT)
    else if name == "Circle" then Some(TYPE_CIRCLE)
    else if name == "App" then Some(TYPE_APP)
    else
      var code := UnknownCode(name);
      if code.Some? && !IsKnownUserType(code.value) then code else None
  }

  /** Every user type, known or not, is recovered from its name. */
  lemma UserTypeNameRoundTrip(userType: int)
    ensures UserTypeOfName(UserTypeName(userType)) == Some(userType)
  {
    if !IsKnownUserType(userType) {
      UnknownCodeOfLabel(userType);
    }
  }

  /** The number of members a circle reports: zero when they are null or empty. */
  function MemberCount(members: Option<seq<Member>>): (n: nat)
    ensures n == 0 <==> members.None? || members.value == []
    ensures members.Some? ==> n == |members.value|
  {
    if members.Some? && members.value != [] then |members.value| else 0
  }

  function FormatCircle(circle: Circle): (view: CircleView)
    ensures view.id == circle.singleId && view.name == circle.displayName
    ensures view.owner.None? <==> circle.owner.None?
    ensures circle.owner.Some? ==> view.owner == Some(circle.owner.value.userId)
    ensures view.memberCount == MemberCount(circle.members)
    ensures view.config == circle.config && view.source == circle.source
  {
    CircleView(
      circle.singleId,
      circle.displayName,
      if circle.owner.Some? then Some(circle.owner.value.userId) else None,
      MemberCount(circle.members),
      circle.config,
      circle.source)
  }

  /** A member view whose names agree with its codes. */
  predicate ConsistentView(view: MemberView) {
    view.levelName == LevelName(view.level) && view.userTypeName == UserTypeName(view.userType)
  }

  /** The member a view reports. */
  function MemberOfView(view: MemberView): Member {
    Member(view.id, view.singleId, view.userId, view.displayName, view.level, view.status, view.userType)
  }

  function FormatMember(member: Member): (view: MemberView)
    ensures MemberOfView(view) == member
    ensures ConsistentView(view)
  {
    MemberView(
      member.id,
      member.singleId,
      member.userId,
      member.displayName,
      member.level,
      LevelName(member.level),
      member.status,
      member.userType,
      UserTypeName(member.userType))
  }

  /** A consistent view is the format of exactly the member it reports. */
  lemma FormatMemberInverse(view: MemberView)
    requires ConsistentView(view)
    ensures FormatMember(MemberOfView(view)) == view
  {
  }

  /** `views` holds one formatted view per circle, in the same order. */
  predicate FormatsCircles(circles: seq<Circle>, views: seq<CircleView>) {
    |views| == |circles| && forall i :: 0 <= i < |circles| ==> views[i] == FormatCircle(circles[i])
  }

  /** `views` holds one formatted view per member, in the same order. */
  predicate FormatsMembers(members: seq<Member>, views: seq<MemberView>) {
    |views| == |members| && forall i :: 0 <= i < |members| ==> views[i] == FormatMember(members[i])
  }

  /** `foreach ($circles as $circle) { $result[] = $this->formatCircle($circle); }` */
  method FormatCircles(circles: seq<Circle>) returns (views: seq<CircleView>)
    ensures FormatsCircles(circles, views)
  {
    views := [];
    for i := 0 to |circles|
      invariant FormatsCircles(circles[..i], views)
    {
      views := views + [FormatCircle(circles[i])];
    }
    assert circles[..|circles|] == circles;
  }

  /** `foreach ($circle->getMembers() as $member) { $result[] = $this->formatMember($member); }` */
  method FormatMembers(members: seq<Member>) returns (views: seq<MemberView>)
    ensures FormatsMembers(members, views)
  {
    views := [];
    for i := 0 to |members|
      invariant FormatsMembers(members[..i], views)
    {
      views := views + [FormatMember(members[i])];
    }
    assert members[..|members|] == members;
  }

  /** The members a circle object iterates over: none when they are null. */
  function MemberList(circle: Circle): (members: seq<Member>)
    ensures |members| == MemberCount(circle.members)
  {
    if circle.members.Some? then circle.members.value else []
  }
}
