/** The Nextcloud Circles engine as the admin service uses it: the `CirclesManager` with its
    ambient privilege session, the `CircleService` rename/describe calls, and the
    `circles_circle` table that the service corrects directly. The engine's own code is not
    part of this model; what it does here is a small stand-in: every call is recorded in
    `log`, a call fails when `env.faults` lists it (with the message of the exception it
    throws) or when it names a circle, member or user that does not exist, and otherwise it
    acts on the circle table `store`. */
module Engine {
  import opened Wrappers
  import opened Text

  // Member levels.
  const LEVEL_MEMBER := 1
  const LEVEL_MODERATOR := 4
  const LEVEL_ADMIN := 8
  const LEVEL_OWNER := 9

  // Member (user) types.
  const TYPE_SINGLE := 0
  const TYPE_USER := 1
  const TYPE_GROUP := 2
  const TYPE_MAIL := 4
  const TYPE_CONTACT := 8
  const TYPE_CIRCLE := 16
  const TYPE_APP := 10000

  // Circle configuration values: an open circle, and the "personal" circle that a
  // creation under an application session produces.
  const CONFIG_OPEN := 0
  const CONFIG_PERSONAL := 2

  const STATUS_MEMBER := "Member"

  // Messages of the engine's own refusals (stand-ins: the engine is not modelled).
  const CIRCLE_NOT_FOUND := "Circle not found"
  const MEMBER_NOT_FOUND := "Member not found"
  const USER_NOT_FOUND := "User not found"
  const INVALID_NAME := "Invalid circle name"
  const ALREADY_MEMBER := "Already a member"

  datatype Member = Member(
    id: string,
    singleId: string,
    userId: string,
    displayName: string,
    level: int,
    status: string,
    userType: int)

  /** A circle object as the engine hands it out; `members` is null when not loaded. */
  datatype Circle = Circle(
    singleId: string,
    displayName: string,
    owner: Option<Member>,
    members: Option<seq<Member>>,
    config: int,
    source: int,
    description: string)

  datatype FederatedUser = FederatedUser(userId: string, userType: int)

  /** Visibility flags of a circle listing. */
  datatype Probe = Probe(includeSystem: bool, includeSingle: bool, includeHidden: bool, includeBackend: bool)

  /** The ambient privilege session. */
  datatype Session =
    | NoSession
    | SuperSession(flag: bool)
    | AppSession(appId: string)
    | OccSession(userId: string, userType: int, circleId: string)

  /** One call into the engine, with its arguments. `stopSession()` takes none; it is recorded
      with the session it ends, since the engine may refuse to end one session and not another. */
  datatype Call =
    | StartSuperSession(flag: bool)
    | StartAppSession(appId: string)
    | StartOccSession(userId: string, userType: int, circleId: string)
    | StopSession(ending: Session)
    | GetCircles(probe: Probe)
    | GetCircle(circleId: string)
    | GetFederatedUser(userId: string, userType: int)
    | CreateCircle(name: string, owner: FederatedUser)
    | UpdateName(circleId: string, name: string)
    | UpdateDescription(circleId: string, description: string)
    | DestroyCircle(circleId: string)
    | AddMember(circleId: string, user: FederatedUser)
    | RemoveMember(memberId: string)
    | LevelMember(memberId: string, level: int)
    | UpdateCircleRow(uniqueId: string, config: int, newDescription: Option<string>)

  /** One row of the circle table, keyed by the circle's unique id. */
  datatype Row = Row(
    name: string,
    owner: Option<Member>,
    members: seq<Member>,
    config: int,
    source: int,
    description: string)

  /** The circle table, the engine's listing order, and the counter it draws new ids from. */
  datatype Store = Store(circles: map<string, Row>, order: seq<string>, nextId: nat)

  /** What the engine refuses: calls that throw, with their messages, and the known users. A
      stop is listed with the session it ends, so the stops of two different sessions fail or
      succeed independently. */
  datatype Env = Env(faults: map<Call, string>, users: set<string>)

  function CircleId(n: nat): string {
    "circle-" + NatToString(n)
  }

  function MemberId(n: nat): string {
    "member-" + NatToString(n)
  }

  lemma CircleIdInjective(a: nat, b: nat)
    ensures CircleId(a) == CircleId(b) ==> a == b
  {
    if CircleId(a) == CircleId(b) {
      assert NatToString(a) == CircleId(a)[7..];
      assert NatToString(b) == CircleId(b)[7..];
      NatToStringInjective(a, b);
    }
  }

  predicate Distinct(ids: seq<string>) {
    forall i, j :: 0 <= i < j < |ids| ==> ids[i] != ids[j]
  }

  /** Every circle is listed exactly once, and ids from the counter onwards are unused. */
  ghost predicate StoreValid(s: Store) {
    && (forall id :: id in s.circles <==> id in s.order)
    && Distinct(s.order)
    && (forall n: nat :: n >= s.nextId ==> CircleId(n) !in s.circles)
  }

  function ObjectOf(id: string, row: Row): Circle {
    Circle(id, row.name, row.owner, Some(row.members), row.config, row.source, row.description)
  }

  function Lookup(s: Store, id: string): Circle
    requires id in s.circles
  {
    ObjectOf(id, s.circles[id])
  }

  /** All circles, in the engine's order. */
  function Listing(s: Store): (cs: seq<Circle>)
    requires StoreValid(s)
    ensures |cs| == |s.order|
    ensures forall i :: 0 <= i < |cs| ==> cs[i] == Lookup(s, s.order[i])
  {
    seq(|s.order|, i requires 0 <= i < |s.order| => Lookup(s, s.order[i]))
  }

  /** `ids` without `x`, order kept. */
  function Without(ids: seq<string>, x: string): (r: seq<string>)
    ensures forall y :: y in r <==> y in ids && y != x
    ensures Distinct(ids) ==> Distinct(r)
  {
    if ids == [] then []
    else if ids[0] == x then Without(ids[1..], x)
    else
      var rest := Without(ids[1..], x);
      assert Distinct(ids) ==> ids[0] !in ids[1..];
      [ids[0]] + rest
  }

  /** `members` without the membership `memberId`, order kept. */
  function DropMember(members: seq<Member>, memberId: string): (r: seq<Member>)
    ensures |r| <= |members|
    ensures forall m :: m in r <==> m in members && m.id != memberId
  {
    if members == [] then []
    else if members[0].id == memberId then DropMember(members[1..], memberId)
    else [members[0]] + DropMember(members[1..], memberId)
  }

  function Releveled(members: seq<Member>, memberId: string, level: int): seq<Member> {
    seq(|members|, i requires 0 <= i < |members| =>
      if members[i].id == memberId then members[i].(level := level) else members[i])
  }

  function NewMember(n: nat, user: FederatedUser, level: int): Member {
    Member(MemberId(n), user.userId, user.userId, user.userId, level, STATUS_MEMBER, user.userType)
  }

  /** The configuration the engine gives a circle created under `session`. */
  function CreatedConfig(session: Session): int {
    if session.AppSession? then CONFIG_PERSONAL else CONFIG_OPEN
  }

  /** The table after creating a circle: a fresh id, owned by `owner`, who is its only member. */
  function Created(s: Store, name: string, owner: FederatedUser, config: int): Store {
    var boss := NewMember(s.nextId, owner, LEVEL_OWNER);
    Store(s.circles[CircleId(s.nextId) := Row(name, Some(boss), [boss], config, owner.userType, "")],
          s.order + [CircleId(s.nextId)], s.nextId + 1)
  }

  function Renamed(s: Store, id: string, name: string): Store {
    if id in s.circles then s.(circles := s.circles[id := s.circles[id].(name := name)]) else s
  }

  function Redescribed(s: Store, id: string, description: string): Store {
    if id in s.circles then s.(circles := s.circles[id := s.circles[id].(description := description)]) else s
  }

  function Destroyed(s: Store, id: string): Store {
    s.(circles := s.circles - {id}, order := Without(s.order, id))
  }

  function Joined(s: Store, id: string, user: FederatedUser): Store
    requires id in s.circles
  {
    var row := s.circles[id];
    s.(circles := s.circles[id := row.(members := row.members + [NewMember(s.nextId, user, LEVEL_MEMBER)])],
       nextId := s.nextId + 1)
  }

  function Removed(s: Store, memberId: string): Store {
    s.(circles := map id | id in s.circles :: s.circles[id].(members := DropMember(s.circles[id].members, memberId)))
  }

  function Leveled(s: Store, memberId: string, level: int): Store {
    s.(circles := map id | id in s.circles :: s.circles[id].(members := Releveled(s.circles[id].members, memberId, level)))
  }

  /** The effect of `UPDATE circles_circle SET config = .. [, description = ..] WHERE unique_id = ..`:
      no row matches, nothing changes. */
  function RowUpdated(s: Store, uniqueId: string, config: int, description: Option<string>): Store {
    if uniqueId in s.circles then
      var row := s.circles[uniqueId];
      s.(circles := s.circles[uniqueId := row.(config := config,
                                               description := if description.Some? then description.value else row.description)])
    else s
  }

  predicate HasMemberId(s: Store, memberId: string) {
    exists id :: id in s.circles && exists m :: m in s.circles[id].members && m.id == memberId
  }

  predicate IsMember(members: seq<Member>, user: FederatedUser) {
    exists m :: m in members && m.userId == user.userId && m.userType == user.userType
  }

  /** The message of the exception the engine throws for `c` on table `s`, if it throws. */
  function Refusal(env: Env, s: Store, c: Call): Option<string> {
    if c in env.faults then Some(env.faults[c])
    else match c
      case GetCircle(id) => if id in s.circles then None else Some(CIRCLE_NOT_FOUND)
      case GetFederatedUser(userId, _) => if userId in env.users then None else Some(USER_NOT_FOUND)
      case CreateCircle(name, _) => if name == "" then Some(INVALID_NAME) else None
      case UpdateName(id, _) => if id in s.circles then None else Some(CIRCLE_NOT_FOUND)
      case UpdateDescription(id, _) => if id in s.circles then None else Some(CIRCLE_NOT_FOUND)
      case DestroyCircle(id) => if id in s.circles then None else Some(CIRCLE_NOT_FOUND)
      case AddMember(id, user) =>
        if id !in s.circles then Some(CIRCLE_NOT_FOUND)
        else if IsMember(s.circles[id].members, user) then Some(ALREADY_MEMBER)
        else None
      case RemoveMember(memberId) => if HasMemberId(s, memberId) then None else Some(MEMBER_NOT_FOUND)
      case LevelMember(memberId, _) => if HasMemberId(s, memberId) then None else Some(MEMBER_NOT_FOUND)
      case _ => None
  }

  function Answer<T>(refusal: Option<string>, value: T): Result<T> {
    if refusal.Some? then Fail(refusal.value) else Ok(value)
  }

  class CirclesManager {
    var session: Session
    var log: seq<Call>
    var store: Store
    const env: Env

    ghost predicate Valid()
      reads this`store
    {
      StoreValid(store)
    }

    constructor (env: Env, store: Store)
      requires StoreValid(store)
      ensures Valid() && this.env == env && this.store == store
      ensures session == NoSession && log == []
    {
      this.env := env;
      this.store := store;
      session := NoSession;
      log := [];
    }

    /** Records `c` and tells whether the engine throws for it. */
    method Issue(c: Call) returns (refusal: Option<string>)
      modifies this`log
      ensures log == old(log) + [c]
      ensures refusal == Refusal(env, store, c)
    {
      log := log + [c];
      refusal := Refusal(env, store, c);
    }

    method StartSuperSession(flag: bool) returns (r: Result<()>)
      modifies this`log, this`session
      ensures log == old(log) + [Call.StartSuperSession(flag)]
      ensures r == Answer(Refusal(env, store, Call.StartSuperSession(flag)), ())
      ensures session == if r.Ok? then SuperSession(flag) else old(session)
    {
      var refusal := Issue(Call.StartSuperSession(flag));
      r := Answer(refusal, ());
      if r.Ok? { session := SuperSession(flag); }
    }

    method StartAppSession(appId: string) returns (r: Result<()>)
      modifies this`log, this`session
      ensures log == old(log) + [Call.StartAppSession(appId)]
      ensures r == Answer(Refusal(env, store, Call.StartAppSession(appId)), ())
      ensures session == if r.Ok? then AppSession(appId) else old(session)
    {
      var refusal := Issue(Call.StartAppSession(appId));
      r := Answer(refusal, ());
      if r.Ok? { session := AppSession(appId); }
    }

    method StartOccSession(userId: string, userType: int, circleId: string) returns (r: Result<()>)
      modifies this`log, this`session
      ensures log == old(log) + [Call.StartOccSession(userId, userType, circleId)]
      ensures r == Answer(Refusal(env, store, Call.StartOccSession(userId, userType, circleId)), ())
      ensures session == if r.Ok? then OccSession(userId, userType, circleId) else old(session)
    {
      var refusal := Issue(Call.StartOccSession(userId, userType, circleId));
      r := Answer(refusal, ());
      if r.Ok? { session := OccSession(userId, userType, circleId); }
    }

    method StopSession() returns (r: Result<()>)
      modifies this`log, this`session
      ensures log == old(log) + [Call.StopSession(old(session))]
      ensures r == Answer(Refusal(env, store, Call.StopSession(old(session))), ())
      ensures session == if r.Ok? then NoSession else old(session)
    {
      var refusal := Issue(Call.StopSession(session));
      r := Answer(refusal, ());
      if r.Ok? { session := NoSession; }
    }

    method GetCircles(probe: Probe) returns (r: Result<seq<Circle>>)
      requires Valid()
      modifies this`log
      ensures log == old(log) + [Call.GetCircles(probe)]
      ensures r == Answer(Refusal(env, store, Call.GetCircles(probe)), Listing(store))
    {
      var refusal := Issue(Call.GetCircles(probe));
      r := Answer(refusal, Listing(store));
    }

    method GetCircle(circleId: string) returns (r: Result<Circle>)
      modifies this`log
      ensures log == old(log) + [Call.GetCircle(circleId)]
      ensures r.Fail? <==> Refusal(env, store, Call.GetCircle(circleId)).Some?
      ensures r.Fail? ==> r.message == Refusal(env, store, Call.GetCircle(circleId)).value
      ensures r.Ok? ==> circleId in store.circles && r.value == Lookup(store, circleId)
    {
      var refusal := Issue(Call.GetCircle(circleId));
      if refusal.Some? {
        r := Fail(refusal.value);
      } else {
        r := Ok(Lookup(store, circleId));
      }
    }

    method GetFederatedUser(userId: string, userType: int) returns (r: Result<FederatedUser>)
      modifies this`log
      ensures log == old(log) + [Call.GetFederatedUser(userId, userType)]
      ensures r == Answer(Refusal(env, store, Call.GetFederatedUser(userId, userType)), FederatedUser(userId, userType))
    {
      var refusal := Issue(Call.GetFederatedUser(userId, userType));
      r := Answer(refusal, FederatedUser(userId, userType));
    }

    method CreateCircle(name: string, owner: FederatedUser) returns (r: Result<Circle>)
      requires Valid()
      modifies this`log, this`store
      ensures Valid()
      ensures log == old(log) + [Call.CreateCircle(name, owner)]
      ensures var refusal := Refusal(env, old(store), Call.CreateCircle(name, owner));
              var id := CircleId(old(store).nextId);
              && (refusal.Some? ==> r == Fail(refusal.value) && store == old(store))
              && (refusal.None? ==>
                    && store == Created(old(store), name, owner, CreatedConfig(session))
                    && id !in old(store).circles
                    && r == Ok(Lookup(store, id)))
    {
      var refusal := Issue(Call.CreateCircle(name, owner));
      if refusal.Some? {
        r := Fail(refusal.value);
      } else {
        var id := CircleId(store.nextId);
        assert id !in store.circles;
        ghost var before := store;
        store := Created(store, name, owner, CreatedConfig(session));
        forall n: nat | n >= store.nextId
          ensures CircleId(n) !in store.circles
        {
          CircleIdInjective(n, before.nextId);
        }
        r := Ok(Lookup(store, id));
      }
    }

    method UpdateName(circleId: string, name: string) returns (r: Result<()>)
      requires Valid()
      modifies this`log, this`store
      ensures Valid()
      ensures log == old(log) + [Call.UpdateName(circleId, name)]
      ensures r == Answer(Refusal(env, old(store), Call.UpdateName(circleId, name)), ())
      ensures store == if r.Ok? then Renamed(old(store), circleId, name) else old(store)
    {
      var refusal := Issue(Call.UpdateName(circleId, name));
      r := Answer(refusal, ());
      if r.Ok? { store := Renamed(store, circleId, name); }
    }

    method UpdateDescription(circleId: string, description: string) returns (r: Result<()>)
      requires Valid()
      modifies this`log, this`store
      ensures Valid()
      ensures log == old(log) + [Call.UpdateDescription(circleId, description)]
      ensures r == Answer(Refusal(env, old(store), Call.UpdateDescription(circleId, description)), ())
      ensures store == if r.Ok? then Redescribed(old(store), circleId, description) else old(store)
    {
      var refusal := Issue(Call.UpdateDescription(circleId, description));
      r := Answer(refusal, ());
      if r.Ok? { store := Redescribed(store, circleId, description); }
    }

    method DestroyCircle(circleId: string) returns (r: Result<()>)
      requires Valid()
      modifies this`log, this`store
      ensures Valid()
      ensures log == old(log) + [Call.DestroyCircle(circleId)]
      ensures r == Answer(Refusal(env, old(store), Call.DestroyCircle(circleId)), ())
      ensures store == if r.Ok? then Destroyed(old(store), circleId) else old(store)
    {
      var refusal := Issue(Call.DestroyCircle(circleId));
      r := Answer(refusal, ());
      if r.Ok? { store := Destroyed(store, circleId); }
    }

    method AddMember(circleId: string, user: FederatedUser) returns (r: Result<Member>)
      requires Valid()
      modifies this`log, this`store
      ensures Valid()
      ensures log == old(log) + [Call.AddMember(circleId, user)]
      ensures var refusal := Refusal(env, old(store), Call.AddMember(circleId, user));
              && (refusal.Some? ==> r == Fail(refusal.value) && store == old(store))
              && (refusal.None? ==>
                    && circleId in old(store).circles
                    && store == Joined(old(store), circleId, user)
                    && r == Ok(NewMember(old(store).nextId, user, LEVEL_MEMBER)))
    {
      var refusal := Issue(Call.AddMember(circleId, user));
      if refusal.Some? {
        r := Fail(refusal.value);
      } else {
        r := Ok(NewMember(store.nextId, user, LEVEL_MEMBER));
        store := Joined(store, circleId, user);
      }
    }

    method RemoveMember(memberId: string) returns (r: Result<()>)
      requires Valid()
      modifies this`log, this`store
      ensures Valid()
      ensures log == old(log) + [Call.RemoveMember(memberId)]
      ensures r == Answer(Refusal(env, old(store), Call.RemoveMember(memberId)), ())
      ensures store == if r.Ok? then Removed(old(store), memberId) else old(store)
    {
      var refusal := Issue(Call.RemoveMember(memberId));
      r := Answer(refusal, ());
      if r.Ok? { store := Removed(store, memberId); }
    }

    method LevelMember(memberId: string, level: int) returns (r: Result<()>)
      requires Valid()
      modifies this`log, this`store
      ensures Valid()
      ensures log == old(log) + [Call.LevelMember(memberId, level)]
      ensures r == Answer(Refusal(env, old(store), Call.LevelMember(memberId, level)), ())
      ensures store == if r.Ok? then Leveled(old(store), memberId, level) else old(store)
    {
      var refusal := Issue(Call.LevelMember(memberId, level));
      r := Answer(refusal, ());
      if r.Ok? { store := Leveled(store, memberId, level); }
    }

    /** The direct statement on the circle table that bypasses the engine's API. */
    method UpdateCircleRow(uniqueId: string, config: int, description: Option<string>) returns (r: Result<()>)
      requires Valid()
      modifies this`log, this`store
      ensures Valid()
      ensures log == old(log) + [Call.UpdateCircleRow(uniqueId, config, description)]
      ensures r == Answer(Refusal(env, old(store), Call.UpdateCircleRow(uniqueId, config, description)), ())
      ensures store == if r.Ok? then RowUpdated(old(store), uniqueId, config, description) else old(store)
    {
      var refusal := Issue(Call.UpdateCircleRow(uniqueId, config, description));
      r := Answer(refusal, ());
      if r.Ok? { store := RowUpdated(store, uniqueId, config, description); }
    }
  }
}
