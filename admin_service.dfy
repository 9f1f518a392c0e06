/** `CirclesAdminService`: each public operation enters one or more privilege sessions on
    the engine before its `try` block, runs its engine calls inside it, and calls
    `stopSession()` in `finally`.

    Every operation is specified by its PLAN, the engine calls it makes in order when nothing
    fails: the session calls `starts` placed before the `try` block, then the calls `body` of
    the `try` block. The engine refuses some call of the plan first (computed on the table as
    it was when the operation began); the exception of that call ends the operation and
    becomes its result. The contracts state this in two levels, the first refusal among the
    session calls and the first refusal in the `try` block, and `BracketIsTrace` shows that
    this is the plan run up to its first refused call, followed by the `finally` block's stop
    exactly when the `try` block was entered. */
module AdminService {
  import opened Wrappers
  import opened Engine
  import opened Format

  /** The application identity circles are created under. */
  const APP_ID := "circlesadmin"

  /** The listing probe: system, single, hidden and backend circles included. */
  const ALL_CIRCLES := Probe(true, true, true, true)

  /** Index of the first call of `plan` the engine refuses on table `s`; `|plan|` when none. */
  function FirstRefusal(env: Env, s: Store, plan: seq<Call>): (k: nat)
    ensures k <= |plan|
    ensures forall i :: 0 <= i < k ==> Refusal(env, s, plan[i]).None?
    ensures k < |plan| ==> Refusal(env, s, plan[k]).Some?
  {
    if plan == [] then 0
    else if Refusal(env, s, plan[0]).Some? then 0
    else 1 + FirstRefusal(env, s, plan[1..])
  }

  /** The first refusal is the only call refused after a run of accepted calls. */
  lemma FirstRefusalIs(env: Env, s: Store, plan: seq<Call>, k: nat)
    requires k <= |plan|
    requires forall i :: 0 <= i < k ==> Refusal(env, s, plan[i]).None?
    requires k < |plan| ==> Refusal(env, s, plan[k]).Some?
    ensures FirstRefusal(env, s, plan) == k
  {
  }

  /** The first refusal of a plan of three calls. */
  lemma FirstRefusalOfThree(env: Env, s: Store, c0: Call, c1: Call, c2: Call)
    ensures FirstRefusal(env, s, [c0, c1, c2]) ==
              if Refusal(env, s, c0).Some? then 0
              else if Refusal(env, s, c1).Some? then 1
              else if Refusal(env, s, c2).Some? then 2
              else 3
  {
    assert [c0, c1, c2][1..] == [c1, c2];
    assert [c1, c2][1..] == [c2];
    assert [c2][1..] == [];
    assert FirstRefusal(env, s, [c2]) == if Refusal(env, s, c2).Some? then 0 else 1;
  }

  /** The calls of `plan` made when the engine first refuses `plan[k]`: all of them when
      `k == |plan|`. */
  function Upto(plan: seq<Call>, k: nat): (made: seq<Call>)
    requires k <= |plan|
    ensures |made| == if k < |plan| then k + 1 else |plan|
    ensures made <= plan
  {
    if k < |plan| then plan[..k + 1] else plan
  }

  /** The calls an operation with `plan` makes when the engine first refuses `plan[k]`: the
      `finally` block's stop of the session `open` follows when the `starts` calls before `try`
      succeeded. */
  function Trace(plan: seq<Call>, starts: nat, k: nat, open: Session): seq<Call>
    requires starts <= |plan| && k <= |plan|
  {
    Upto(plan, k) + (if k < starts then [] else [Call.StopSession(open)])
  }

  /** The exception of the refused call `plan[k]`. */
  function Thrown<T>(env: Env, s: Store, plan: seq<Call>, k: nat): Result<T>
    requires k < |plan| && Refusal(env, s, plan[k]).Some?
  {
    Fail(Refusal(env, s, plan[k]).value)
  }

  /** The calls made by running `a` and then, if none of its calls is refused, `b`, when
      `a[ka]` and `b[kb]` are the first refused calls of each. */
  function Then(a: seq<Call>, ka: nat, b: seq<Call>, kb: nat): seq<Call>
    requires ka <= |a| && kb <= |b|
  {
    if ka < |a| then Upto(a, ka) else a + Upto(b, kb)
  }

  /** Running `a` then `b` is running the plan `a + b` up to its first refused call. */
  lemma ThenIsUpto(env: Env, s: Store, a: seq<Call>, b: seq<Call>)
    ensures var ka := FirstRefusal(env, s, a);
            var kb := FirstRefusal(env, s, b);
            && FirstRefusal(env, s, a + b) == (if ka < |a| then ka else |a| + kb)
            && Then(a, ka, b, kb) == Upto(a + b, FirstRefusal(env, s, a + b))
  {
    var ka := FirstRefusal(env, s, a);
    var kb := FirstRefusal(env, s, b);
    if ka < |a| {
      FirstRefusalIs(env, s, a + b, ka);
      assert (a + b)[..ka + 1] == a[..ka + 1];
    } else {
      forall i | 0 <= i < |a| + kb
        ensures Refusal(env, s, (a + b)[i]).None?
      {
        if i < |a| {
          assert (a + b)[i] == a[i];
        } else {
          assert (a + b)[i] == b[i - |a|];
        }
      }
      FirstRefusalIs(env, s, a + b, |a| + kb);
      if kb < |b| {
        assert (a + b)[..|a| + kb + 1] == a + b[..kb + 1];
      }
    }
  }

  /** The calls an operation makes when its session calls are `starts` and its `try` block
      makes `made` and leaves `open` as the session: the session calls up to the first refused
      one, and, when none is refused, the `try` block's calls followed by the `finally` block's
      stop of `open`. */
  function Bracket(env: Env, s: Store, starts: seq<Call>, made: seq<Call>, open: Session): seq<Call> {
    var ks := FirstRefusal(env, s, starts);
    if ks < |starts| then Upto(starts, ks) else starts + made + [Call.StopSession(open)]
  }

  /** The log after a run of `a` none of whose calls is refused, followed by the calls `b`
      makes. */
  lemma ThenAfter(before: seq<Call>, a: seq<Call>, b: seq<Call>, kb: nat)
    requires kb <= |b|
    ensures before + Upto(a, |a|) + Upto(b, kb) == before + Then(a, |a|, b, kb)
  {
  }

  /** The two-level account of an operation is its whole plan run up to its first refused
      call, followed by the stop exactly when that call is not a session call. */
  lemma BracketIsTrace(env: Env, s: Store, starts: seq<Call>, body: seq<Call>, open: Session)
    ensures Bracket(env, s, starts, Upto(body, FirstRefusal(env, s, body)), open)
            == Trace(starts + body, |starts|, FirstRefusal(env, s, starts + body), open)
  {
    ThenIsUpto(env, s, starts, body);
  }

  /** The description `createCircle` writes to the row: only a non-null, non-empty one. Since
      a new row's description is empty, skipping the empty one loses nothing: what the row
      then holds is what the operation returns. */
  function DescriptionToWrite(description: Option<string>): (written: Option<string>)
    ensures written.Some? ==> written == description && written.value != ""
    ensures (if written.Some? then written.value else "") == DescriptionOrEmpty(description)
  {
    if description.Some? && description.value != "" then description else None
  }

  /** `$description ?? ''`: the given description, and empty exactly when none or an empty one
      is given. */
  function DescriptionOrEmpty(description: Option<string>): (text: string)
    ensures description.Some? ==> text == description.value
    ensures text == "" <==> description.None? || description.value == ""
  {
    if description.Some? then description.value else ""
  }

  /** The row `createCircle` leaves behind reads back as created: the given name and owner,
      the open configuration, and the description the operation returns. */
  lemma CreatedCircleReadsBack(s: Store, name: string, ownerUserId: string, description: Option<string>, config: int)
    ensures var id := CircleId(s.nextId);
            var t := RowUpdated(Created(s, name, FederatedUser(ownerUserId, TYPE_USER), config), id, CONFIG_OPEN,
                                DescriptionToWrite(description));
            && id in t.circles
            && var circle := Lookup(t, id);
            && circle.displayName == name
            && circle.owner.Some? && circle.owner.value.userId == ownerUserId
            && circle.config == CONFIG_OPEN
            && circle.description == DescriptionOrEmpty(description)
  {
  }

  /** The session call of the read-only operations. */
  function ReadStarts(): seq<Call> {
    [Call.StartSuperSession(false)]
  }

  /** The session calls `createCircle` opens before its `try` block. */
  function CreateStarts(): seq<Call> {
    [Call.StartSuperSession(false), Call.StartAppSession(APP_ID)]
  }

  /** The calls of `createCircle`'s `try` block on table `s`: the owner's lookup, the creation,
      and the direct update of the new circle's row. */
  function CreateBody(s: Store, name: string, ownerUserId: string, description: Option<string>): seq<Call> {
    [ Call.GetFederatedUser(ownerUserId, TYPE_USER),
      Call.CreateCircle(name, FederatedUser(ownerUserId, TYPE_USER)),
      Call.UpdateCircleRow(CircleId(s.nextId), CONFIG_OPEN, DescriptionToWrite(description)) ]
  }

  /** The session calls every mutation of an existing circle opens before its `try` block. */
  function OccasionStarts(circleId: string): seq<Call> {
    [Call.StartSuperSession(true), Call.StartOccSession("", TYPE_SINGLE, circleId)]
  }

  function OccasionSession(circleId: string): Session {
    OccSession("", TYPE_SINGLE, circleId)
  }

  /** The edits `updateCircle` makes: a rename when a name is given, then a new description
      when one is given. */
  function UpdateEdits(circleId: string, name: Option<string>, description: Option<string>): seq<Call> {
    (if name.Some? then [Call.UpdateName(circleId, name.value)] else [])
    + (if description.Some? then [Call.UpdateDescription(circleId, description.value)] else [])
  }

  /** The edits of each combination of given fields. */
  lemma EditsShape(circleId: string, name: Option<string>, description: Option<string>)
    ensures var edits := UpdateEdits(circleId, name, description);
            && (name.Some? && description.Some? ==>
                  edits == [Call.UpdateName(circleId, name.value), Call.UpdateDescription(circleId, description.value)])
            && (name.Some? && description.None? ==> edits == [Call.UpdateName(circleId, name.value)])
            && (name.None? && description.Some? ==> edits == [Call.UpdateDescription(circleId, description.value)])
            && (name.None? && description.None? ==> edits == [])
  {
  }

  /** How `updateCircle` reads the circle back: it leaves the session `from` (the occasional
      session) and re-reads the circle as super user. */
  function ReadBack(from: Session, circleId: string): seq<Call> {
    [Call.StopSession(from), Call.StartSuperSession(false), Call.GetCircle(circleId)]
  }

  /** The session left by the read-back from `from` when the engine first refuses its call `k`:
      the stop has not succeeded, the stop succeeded alone, or the super session is open. */
  function ReadBackSession(from: Session, k: nat): Session {
    if k == 0 then from else if k == 1 then NoSession else SuperSession(false)
  }

  /** The session `updateCircle`'s `try` block leaves when it starts in `from`, its edits are
      first refused at `ke` of `edits` and its read-back at `kr`. */
  function UpdatedSession(from: Session, edits: nat, ke: nat, kr: nat): Session {
    if ke < edits then from else ReadBackSession(from, kr)
  }

  /** The calls `updateCircle` plans. */
  function UpdatePlan(circleId: string, name: Option<string>, description: Option<string>): seq<Call> {
    OccasionStarts(circleId) + (UpdateEdits(circleId, name, description) + ReadBack(OccasionSession(circleId), circleId))
  }

  /** The table after the first `n` calls of `UpdateEdits(..)`, or all of them when there are
      fewer. */
  function EditedStore(s: Store, circleId: string, name: Option<string>, description: Option<string>, n: nat): (t: Store)
    ensures t.circles.Keys == s.circles.Keys && t.order == s.order && t.nextId == s.nextId
  {
    var renamed := if name.Some? && n > 0 then Renamed(s, circleId, name.value) else s;
    var described := if name.Some? then 1 else 0;
    if description.Some? && n > described then Redescribed(renamed, circleId, description.value) else renamed
  }

  /** The read-back is refused alike on two tables holding the same circles. */
  lemma ReadBackUnchanged(env: Env, s: Store, t: Store, from: Session, circleId: string)
    requires s.circles.Keys == t.circles.Keys
    ensures forall i :: 0 <= i < |ReadBack(from, circleId)| ==>
              Refusal(env, s, ReadBack(from, circleId)[i]) == Refusal(env, t, ReadBack(from, circleId)[i])
    ensures FirstRefusal(env, s, ReadBack(from, circleId)) == FirstRefusal(env, t, ReadBack(from, circleId))
  {
    var plan := ReadBack(from, circleId);
    assert forall i :: 0 <= i < |plan| ==> Refusal(env, s, plan[i]) == Refusal(env, t, plan[i]);
    FirstRefusalIs(env, t, plan, FirstRefusal(env, s, plan));
  }

  /** `updateCircle` makes its whole plan up to the first refused call, then stops the session
      its `try` block left when it got past its session calls. */
  lemma UpdateIsTrace(env: Env, s: Store, circleId: string, name: Option<string>, description: Option<string>)
    ensures var edits := UpdateEdits(circleId, name, description);
            var readBack := ReadBack(OccasionSession(circleId), circleId);
            var ke := FirstRefusal(env, s, edits);
            var kr := FirstRefusal(env, s, readBack);
            var open := UpdatedSession(OccasionSession(circleId), |edits|, ke, kr);
            var plan := UpdatePlan(circleId, name, description);
            Bracket(env, s, OccasionStarts(circleId), Then(edits, ke, readBack, kr), open)
              == Trace(plan, 2, FirstRefusal(env, s, plan), open)
  {
    var edits := UpdateEdits(circleId, name, description);
    var readBack := ReadBack(OccasionSession(circleId), circleId);
    var open := UpdatedSession(OccasionSession(circleId), |edits|, FirstRefusal(env, s, edits), FirstRefusal(env, s, readBack));
    ThenIsUpto(env, s, edits, readBack);
    BracketIsTrace(env, s, OccasionStarts(circleId), edits + readBack, open);
  }

  /** When the only call the engine refuses is the stop of the read-back's super session, an
      update of an existing circle gets through its session calls, its edits and its read-back;
      so only the `finally` block's stop fails, and the session it was to end stays open. */
  lemma FinallyStopFailureReachable(s: Store, circleId: string, name: Option<string>, description: Option<string>, m: string)
    requires circleId in s.circles
    ensures var env := Env(map[Call.StopSession(SuperSession(false)) := m], {});
            var edits := UpdateEdits(circleId, name, description);
            var ke := FirstRefusal(env, s, edits);
            var kr := FirstRefusal(env, s, ReadBack(OccasionSession(circleId), circleId));
            && FirstRefusal(env, s, OccasionStarts(circleId)) == 2
            && ke == |edits| && kr == 3
            && AfterStop(env, UpdatedSession(OccasionSession(circleId), |edits|, ke, kr)) == SuperSession(false)
  {
    var env := Env(map[Call.StopSession(SuperSession(false)) := m], {});
    var edits := UpdateEdits(circleId, name, description);
    FirstRefusalIs(env, s, OccasionStarts(circleId), 2);
    FirstRefusalIs(env, s, edits, |edits|);
    FirstRefusalIs(env, s, ReadBack(OccasionSession(circleId), circleId), 3);
  }

  /** The log after the session calls, the `try` block's calls and the stop. */
  lemma Bracketed(env: Env, s: Store, before: seq<Call>, starts: seq<Call>, made: seq<Call>, open: Session)
    requires FirstRefusal(env, s, starts) == |starts|
    ensures before + Upto(starts, |starts|) + made + [Call.StopSession(open)] == before + Bracket(env, s, starts, made, open)
  {
  }

  /** The session left after the `finally` block's stop of `session`: a failed stop leaves it
      open. */
  function AfterStop(env: Env, session: Session): Session {
    if Call.StopSession(session) in env.faults then session else NoSession
  }

  class CirclesAdminService {
    const manager: CirclesManager

    constructor (manager: CirclesManager)
      ensures this.manager == manager
    {
      this.manager := manager;
    }

    /** `stopSession()`: a failure of the manager's stopSession is swallowed. */
    method StopSession()
      modifies manager`log, manager`session
      ensures manager.log == old(manager.log) + [Call.StopSession(old(manager.session))]
      ensures manager.session == AfterStop(manager.env, old(manager.session))
    {
      var ignored := manager.StopSession();
    }

    /** `startSuperSession()`: the session of the read-only operations. */
    method EnterRead() returns (r: Result<()>)
      modifies manager`log, manager`session
      ensures var k := FirstRefusal(manager.env, manager.store, ReadStarts());
              && manager.log == old(manager.log) + Upto(ReadStarts(), k)
              && (r.Ok? <==> k == 1)
              && (k < 1 ==> r == Thrown(manager.env, manager.store, ReadStarts(), k))
              && manager.session == (if k == 0 then old(manager.session) else SuperSession(false))
    {
      r := manager.StartSuperSession(false);
      FirstRefusalIs(manager.env, manager.store, ReadStarts(), if r.Fail? then 0 else 1);
    }

    /** `startSuperSession()` then `startAppSession('circlesadmin')`: the session `createCircle`
        opens before its `try` block. */
    method EnterApp() returns (r: Result<()>)
      modifies manager`log, manager`session
      ensures var k := FirstRefusal(manager.env, manager.store, CreateStarts());
              && manager.log == old(manager.log) + Upto(CreateStarts(), k)
              && (r.Ok? <==> k == 2)
              && (k < 2 ==> r == Thrown(manager.env, manager.store, CreateStarts(), k))
              && manager.session == (if k == 0 then old(manager.session)
                                     else if k == 1 then SuperSession(false)
                                     else AppSession(APP_ID))
    {
      var started := manager.StartSuperSession(false);
      if started.Fail? {
        FirstRefusalIs(manager.env, manager.store, CreateStarts(), 0);
        return started;
      }
      r := manager.StartAppSession(APP_ID);
      FirstRefusalIs(manager.env, manager.store, CreateStarts(), if r.Fail? then 1 else 2);
    }

    /** `startSuperSession(true)` then `startOccSession('', TYPE_SINGLE, $circleId)`: the session
        every mutation of an existing circle opens before its `try` block. */
    method EnterOccasion(circleId: string) returns (r: Result<()>)
      modifies manager`log, manager`session
      ensures var k := FirstRefusal(manager.env, manager.store, OccasionStarts(circleId));
              && manager.log == old(manager.log) + Upto(OccasionStarts(circleId), k)
              && (r.Ok? <==> k == 2)
              && (k < 2 ==> r == Thrown(manager.env, manager.store, OccasionStarts(circleId), k))
              && manager.session == (if k == 0 then old(manager.session)
                                     else if k == 1 then SuperSession(true)
                                     else OccasionSession(circleId))
    {
      var started := manager.StartSuperSession(true);
      if started.Fail? {
        FirstRefusalIs(manager.env, manager.store, OccasionStarts(circleId), 0);
        return started;
      }
      r := manager.StartOccSession("", TYPE_SINGLE, circleId);
      FirstRefusalIs(manager.env, manager.store, OccasionStarts(circleId), if r.Fail? then 1 else 2);
    }

    method ListAll() returns (r: Result<seq<CircleView>>)
      requires manager.Valid()
      modifies manager`log, manager`session
      ensures var s := manager.store;
              var body := [Call.GetCircles(ALL_CIRCLES)];
              var ks := FirstRefusal(manager.env, s, ReadStarts());
              var kb := FirstRefusal(manager.env, s, body);
              && manager.log == old(manager.log) + Bracket(manager.env, s, ReadStarts(), Upto(body, kb), SuperSession(false))
              && (ks < 1 ==> r == Thrown(manager.env, s, ReadStarts(), ks) && manager.session == old(manager.session))
              && (ks == 1 ==> manager.session == AfterStop(manager.env, SuperSession(false)))
              && (ks == 1 && kb < 1 ==> r == Thrown(manager.env, s, body, kb))
              && (ks == 1 && kb == 1 ==> r.Ok? && FormatsCircles(Listing(s), r.value))
    {
      ghost var body := [Call.GetCircles(ALL_CIRCLES)];
      var entered := EnterRead();
      if entered.Fail? {
        return Fail(entered.message);
      }
      // try
      ghost var entry := manager.log;
      var circles := manager.GetCircles(ALL_CIRCLES);
      if circles.Fail? {
        FirstRefusalIs(manager.env, manager.store, body, 0);
        r := Fail(circles.message);
      } else {
        FirstRefusalIs(manager.env, manager.store, body, 1);
        var views := FormatCircles(circles.value);
        r := Ok(views);
      }
      // finally
      StopSession();
      Bracketed(manager.env, old(manager.store), old(manager.log), ReadStarts(), manager.log[|entry|..|manager.log| - 1],
                SuperSession(false));
    }

    method GetCircle(circleId: string) returns (r: Result<CircleDetail>)
      modifies manager`log, manager`session
      ensures var s := manager.store;
              var body := [Call.GetCircle(circleId)];
              var ks := FirstRefusal(manager.env, s, ReadStarts());
              var kb := FirstRefusal(manager.env, s, body);
              && manager.log == old(manager.log) + Bracket(manager.env, s, ReadStarts(), Upto(body, kb), SuperSession(false))
              && (ks < 1 ==> r == Thrown(manager.env, s, ReadStarts(), ks) && manager.session == old(manager.session))
              && (ks == 1 ==> manager.session == AfterStop(manager.env, SuperSession(false)))
              && (ks == 1 && kb < 1 ==> r == Thrown(manager.env, s, body, kb))
              && (ks == 1 && kb == 1 ==>
                    && circleId in s.circles
                    && var circle := Lookup(s, circleId);
                    && r.Ok? && r.value.circle == FormatCircle(circle)
                    && r.value.description == circle.description
                    && FormatsMembers(MemberList(circle), r.value.members))
    {
      ghost var body := [Call.GetCircle(circleId)];
      var entered := EnterRead();
      if entered.Fail? {
        return Fail(entered.message);
      }
      // try
      ghost var entry := manager.log;
      var circle := manager.GetCircle(circleId);
      if circle.Fail? {
        FirstRefusalIs(manager.env, manager.store, body, 0);
        r := Fail(circle.message);
      } else {
        FirstRefusalIs(manager.env, manager.store, body, 1);
        var members := FormatMembers(MemberList(circle.value));
        r := Ok(CircleDetail(FormatCircle(circle.value), circle.value.description, members));
      }
      // finally
      StopSession();
      Bracketed(manager.env, old(manager.store), old(manager.log), ReadStarts(), manager.log[|entry|..|manager.log| - 1],
                SuperSession(false));
    }

    /** The `try` block of `createCircle`: find the owner, create the circle under the current
        session, then set the new row's configuration (and description) directly. */
    method CreateInSession(name: string, ownerUserId: string, description: Option<string>) returns (r: Result<DescribedCircle>)
      requires manager.Valid()
      modifies manager`log, manager`store
      ensures manager.Valid()
      ensures var s := old(manager.store);
              var body := CreateBody(s, name, ownerUserId, description);
              var k := FirstRefusal(manager.env, s, body);
              var created := Created(s, name, FederatedUser(ownerUserId, TYPE_USER), CreatedConfig(manager.session));
              && manager.log == old(manager.log) + Upto(body, k)
              && (k < |body| ==> r == Thrown(manager.env, s, body, k))
              && manager.store == (if k < 2 then s
                                   else if k == 2 then created
                                   else RowUpdated(created, CircleId(s.nextId), CONFIG_OPEN, DescriptionToWrite(description)))
              && (k == 3 ==> r == Ok(DescribedCircle(FormatCircle(Lookup(created, CircleId(s.nextId))), DescriptionOrEmpty(description))))
    {
      ghost var s := manager.store;
      ghost var body := CreateBody(s, name, ownerUserId, description);
      FirstRefusalOfThree(manager.env, s, body[0], body[1], body[2]);
      var owner := manager.GetFederatedUser(ownerUserId, TYPE_USER);
      if owner.Fail? {
        return Fail(owner.message);
      }
      var circle := manager.CreateCircle(name, owner.value);
      if circle.Fail? {
        return Fail(circle.message);
      }
      var circleId := circle.value.singleId;
      assert Refusal(manager.env, manager.store, body[2]) == Refusal(manager.env, s, body[2]);
      // the correction of the engine's "personal" default, with the description if one is given
      var written := manager.UpdateCircleRow(circleId, CONFIG_OPEN, DescriptionToWrite(description));
      if written.Fail? {
        return Fail(written.message);
      }
      r := Ok(DescribedCircle(FormatCircle(circle.value), DescriptionOrEmpty(description)));
    }

    method CreateCircle(name: string, ownerUserId: string, description: Option<string>) returns (r: Result<DescribedCircle>)
      requires manager.Valid()
      modifies manager`log, manager`session, manager`store
      ensures manager.Valid()
      ensures var s := old(manager.store);
              var body := CreateBody(s, name, ownerUserId, description);
              var ks := FirstRefusal(manager.env, s, CreateStarts());
              var kb := FirstRefusal(manager.env, s, body);
              var created := Created(s, name, FederatedUser(ownerUserId, TYPE_USER), CONFIG_PERSONAL);
              && manager.log == old(manager.log) + Bracket(manager.env, s, CreateStarts(), Upto(body, kb), AppSession(APP_ID))
              && (ks < 2 ==> r == Thrown(manager.env, s, CreateStarts(), ks) && manager.store == s)
              && (ks == 2 && kb < 3 ==> r == Thrown(manager.env, s, body, kb))
              && (ks == 2 ==> manager.store == (if kb < 2 then s
                                                else if kb == 2 then created
                                                else RowUpdated(created, CircleId(s.nextId), CONFIG_OPEN, DescriptionToWrite(description))))
              && (ks == 2 && kb == 3 ==>
                    r == Ok(DescribedCircle(FormatCircle(Lookup(created, CircleId(s.nextId))), DescriptionOrEmpty(description))))
              && manager.session == (if ks == 0 then old(manager.session)
                                     else if ks == 1 then SuperSession(false)
                                     else AfterStop(manager.env, AppSession(APP_ID)))
      ensures r.Ok? ==> && r.value.circle.id in manager.store.circles
                        && manager.store.circles[r.value.circle.id].config == CONFIG_OPEN
                        && r.value.circle.config == CONFIG_PERSONAL
    {
      var entered := EnterApp();
      if entered.Fail? {
        return Fail(entered.message);
      }
      // try
      ghost var entry := manager.log;
      r := CreateInSession(name, ownerUserId, description);
      // finally
      StopSession();
      Bracketed(manager.env, old(manager.store), old(manager.log), CreateStarts(), manager.log[|entry|..|manager.log| - 1],
                AppSession(APP_ID));
    }

    /** The edits of `updateCircle`'s `try` block, each made only if the one before succeeded. */
    method ApplyEdits(circleId: string, name: Option<string>, description: Option<string>) returns (r: Result<()>)
      requires manager.Valid()
      modifies manager`log, manager`store
      ensures manager.Valid()
      ensures var edits := UpdateEdits(circleId, name, description);
              var k := FirstRefusal(manager.env, old(manager.store), edits);
              && manager.log == old(manager.log) + Upto(edits, k)
              && (k < |edits| ==> r == Thrown(manager.env, old(manager.store), edits, k))
              && (k == |edits| ==> r == Ok(()))
              && manager.store == EditedStore(old(manager.store), circleId, name, description, k)
    {
      ghost var s := manager.store;
      ghost var edits := UpdateEdits(circleId, name, description);
      ghost var i := 0;
      EditsShape(circleId, name, description);
      if name.Some? {
        var renamed := manager.UpdateName(circleId, name.value);
        if renamed.Fail? {
          FirstRefusalIs(manager.env, s, edits, 0);
          return Fail(renamed.message);
        }
        i := 1;
      }
      if description.Some? {
        var described := manager.UpdateDescription(circleId, description.value);
        if described.Fail? {
          FirstRefusalIs(manager.env, s, edits, i);
          return Fail(described.message);
        }
        i := i + 1;
      }
      FirstRefusalIs(manager.env, s, edits, i);
      r := Ok(());
    }

    /** The read-back of `updateCircle`'s `try` block: stop the session `from`, start a super
        session, and fetch the circle. The stop is not the swallowing `stopSession()`: its
        exception ends the `try` block. */
    method ReadBackCircle(circleId: string) returns (r: Result<DescribedCircle>)
      modifies manager`log, manager`session
      ensures var plan := ReadBack(old(manager.session), circleId);
              var k := FirstRefusal(manager.env, manager.store, plan);
              && manager.log == old(manager.log) + Upto(plan, k)
              && (k < 3 ==> r == Thrown(manager.env, manager.store, plan, k))
              && (k == 3 ==> && circleId in manager.store.circles
                             && var circle := Lookup(manager.store, circleId);
                             r == Ok(DescribedCircle(FormatCircle(circle), circle.description)))
              && manager.session == ReadBackSession(old(manager.session), k)
    {
      ghost var plan := ReadBack(manager.session, circleId);
      var stopped := manager.StopSession();
      if stopped.Fail? {
        FirstRefusalIs(manager.env, manager.store, plan, 0);
        return Fail(stopped.message);
      }
      var started := manager.StartSuperSession(false);
      if started.Fail? {
        FirstRefusalIs(manager.env, manager.store, plan, 1);
        return Fail(started.message);
      }
      var circle := manager.GetCircle(circleId);
      if circle.Fail? {
        FirstRefusalIs(manager.env, manager.store, plan, 2);
        return Fail(circle.message);
      }
      FirstRefusalIs(manager.env, manager.store, plan, 3);
      r := Ok(DescribedCircle(FormatCircle(circle.value), circle.value.description));
    }

    /** The `try` block of `updateCircle`: the edits, and, when they all succeed, the read-back. */
    method UpdateInSession(circleId: string, name: Option<string>, description: Option<string>) returns (r: Result<DescribedCircle>)
      requires manager.Valid()
      modifies manager`log, manager`session, manager`store
      ensures manager.Valid()
      ensures var s := old(manager.store);
              var edits := UpdateEdits(circleId, name, description);
              var readBack := ReadBack(old(manager.session), circleId);
              var ke := FirstRefusal(manager.env, s, edits);
              var kr := FirstRefusal(manager.env, s, readBack);
              && manager.log == old(manager.log) + Then(edits, ke, readBack, kr)
              && manager.store == EditedStore(s, circleId, name, description, ke)
              && (ke < |edits| ==> r == Thrown(manager.env, s, edits, ke))
              && (ke == |edits| && kr < 3 ==> r == Thrown(manager.env, s, readBack, kr))
              && (ke == |edits| && kr == 3 ==>
                    && circleId in manager.store.circles
                    && var circle := Lookup(manager.store, circleId);
                    r == Ok(DescribedCircle(FormatCircle(circle), circle.description)))
              && manager.session == UpdatedSession(old(manager.session), |edits|, ke, kr)
    {
      var edited := ApplyEdits(circleId, name, description);
      if edited.Fail? {
        return Fail(edited.message);
      }
      ReadBackUnchanged(manager.env, old(manager.store), manager.store, old(manager.session), circleId);
      r := ReadBackCircle(circleId);
      ThenAfter(old(manager.log), UpdateEdits(circleId, name, description), ReadBack(old(manager.session), circleId),
                FirstRefusal(manager.env, old(manager.store), ReadBack(old(manager.session), circleId)));
    }

    /** `updateCircle`. A failure of the `finally` block's stop never changes the result: when
        the read-back succeeded, the circle is returned and a failed stop leaves the super
        session of the read-back open. */
    method UpdateCircle(circleId: string, name: Option<string>, description: Option<string>) returns (r: Result<DescribedCircle>)
      requires manager.Valid()
      modifies manager`log, manager`session, manager`store
      ensures manager.Valid()
      ensures var s := old(manager.store);
              var edits := UpdateEdits(circleId, name, description);
              var readBack := ReadBack(OccasionSession(circleId), circleId);
              var ks := FirstRefusal(manager.env, s, OccasionStarts(circleId));
              var ke := FirstRefusal(manager.env, s, edits);
              var kr := FirstRefusal(manager.env, s, readBack);
              var open := UpdatedSession(OccasionSession(circleId), |edits|, ke, kr);
              && manager.log == old(manager.log) + Bracket(manager.env, s, OccasionStarts(circleId), Then(edits, ke, readBack, kr), open)
              && (ks < 2 ==> r == Thrown(manager.env, s, OccasionStarts(circleId), ks) && manager.store == s)
              && (ks == 2 ==> manager.store == EditedStore(s, circleId, name, description, ke))
              && (ks == 2 && ke < |edits| ==> r == Thrown(manager.env, s, edits, ke))
              && (ks == 2 && ke == |edits| && kr < 3 ==> r == Thrown(manager.env, s, readBack, kr))
              && (ks == 2 && ke == |edits| && kr == 3 ==>
                    && circleId in manager.store.circles
                    && var circle := Lookup(manager.store, circleId);
                    r == Ok(DescribedCircle(FormatCircle(circle), circle.description)))
              && manager.session == (if ks == 0 then old(manager.session)
                                     else if ks == 1 then SuperSession(true)
                                     else AfterStop(manager.env, open))
    {
      var entered := EnterOccasion(circleId);
      if entered.Fail? {
        return Fail(entered.message);
      }
      // try
      ghost var entry := manager.log;
      r := UpdateInSession(circleId, name, description);
      ghost var open := manager.session;
      // finally
      StopSession();
      Bracketed(manager.env, old(manager.store), old(manager.log), OccasionStarts(circleId), manager.log[|entry|..|manager.log| - 1],
                open);
    }

    method DestroyCircle(circleId: string) returns (r: Result<()>)
      requires manager.Valid()
      modifies manager`log, manager`session, manager`store
      ensures manager.Valid()
      ensures var s := old(manager.store);
              var body := [Call.DestroyCircle(circleId)];
              var ks := FirstRefusal(manager.env, s, OccasionStarts(circleId));
              var kb := FirstRefusal(manager.env, s, body);
              && manager.log == old(manager.log) + Bracket(manager.env, s, OccasionStarts(circleId), Upto(body, kb), OccasionSession(circleId))
              && (ks < 2 ==> r == Thrown(manager.env, s, OccasionStarts(circleId), ks))
              && (ks == 2 && kb < 1 ==> r == Thrown(manager.env, s, body, kb))
              && (ks == 2 && kb == 1 ==> r == Ok(()))
              && manager.store == (if ks == 2 && kb == 1 then Destroyed(s, circleId) else s)
              && manager.session == (if ks == 0 then old(manager.session)
                                     else if ks == 1 then SuperSession(true)
                                     else AfterStop(manager.env, OccasionSession(circleId)))
    {
      ghost var body := [Call.DestroyCircle(circleId)];
      var entered := EnterOccasion(circleId);
      if entered.Fail? {
        return Fail(entered.message);
      }
      // try
      ghost var entry := manager.log;
      r := manager.DestroyCircle(circleId);
      FirstRefusalIs(manager.env, old(manager.store), body, if r.Fail? then 0 else 1);
      // finally
      StopSession();
      Bracketed(manager.env, old(manager.store), old(manager.log), OccasionStarts(circleId), manager.log[|entry|..|manager.log| - 1],
                OccasionSession(circleId));
    }

    method GetMembers(circleId: string) returns (r: Result<seq<MemberView>>)
      modifies manager`log, manager`session
      ensures var s := manager.store;
              var body := [Call.GetCircle(circleId)];
              var ks := FirstRefusal(manager.env, s, ReadStarts());
              var kb := FirstRefusal(manager.env, s, body);
              && manager.log == old(manager.log) + Bracket(manager.env, s, ReadStarts(), Upto(body, kb), SuperSession(false))
              && (ks < 1 ==> r == Thrown(manager.env, s, ReadStarts(), ks) && manager.session == old(manager.session))
              && (ks == 1 ==> manager.session == AfterStop(manager.env, SuperSession(false)))
              && (ks == 1 && kb < 1 ==> r == Thrown(manager.env, s, body, kb))
              && (ks == 1 && kb == 1 ==> && circleId in s.circles
                                         && r.Ok? && FormatsMembers(MemberList(Lookup(s, circleId)), r.value))
    {
      ghost var body := [Call.GetCircle(circleId)];
      var entered := EnterRead();
      if entered.Fail? {
        return Fail(entered.message);
      }
      // try
      ghost var entry := manager.log;
      var circle := manager.GetCircle(circleId);
      if circle.Fail? {
        FirstRefusalIs(manager.env, manager.store, body, 0);
        r := Fail(circle.message);
      } else {
        FirstRefusalIs(manager.env, manager.store, body, 1);
        var members := FormatMembers(MemberList(circle.value));
        r := Ok(members);
      }
      // finally
      StopSession();
      Bracketed(manager.env, old(manager.store), old(manager.log), ReadStarts(), manager.log[|entry|..|manager.log| - 1],
                SuperSession(false));
    }

    /** The `try` block of `addMember`: find the user, add them as a member, format the member. */
    method AddInSession(circleId: string, userId: string) returns (r: Result<MemberView>)
      requires manager.Valid()
      modifies manager`log, manager`store
      ensures manager.Valid()
      ensures var s := old(manager.store);
              var user := FederatedUser(userId, TYPE_USER);
              var body := [Call.GetFederatedUser(userId, TYPE_USER), Call.AddMember(circleId, user)];
              var k := FirstRefusal(manager.env, s, body);
              && manager.log == old(manager.log) + Upto(body, k)
              && (k < 2 ==> r == Thrown(manager.env, s, body, k) && manager.store == s)
              && (k == 2 ==> && circleId in s.circles
                             && manager.store == Joined(s, circleId, user)
                             && r == Ok(FormatMember(NewMember(s.nextId, user, LEVEL_MEMBER))))
    {
      ghost var body := [Call.GetFederatedUser(userId, TYPE_USER), Call.AddMember(circleId, FederatedUser(userId, TYPE_USER))];
      var user := manager.GetFederatedUser(userId, TYPE_USER);
      if user.Fail? {
        FirstRefusalIs(manager.env, manager.store, body, 0);
        return Fail(user.message);
      }
      var member := manager.AddMember(circleId, user.value);
      if member.Fail? {
        FirstRefusalIs(manager.env, old(manager.store), body, 1);
        return Fail(member.message);
      }
      FirstRefusalIs(manager.env, old(manager.store), body, 2);
      r := Ok(FormatMember(member.value));
    }

    method AddMember(circleId: string, userId: string) returns (r: Result<MemberView>)
      requires manager.Valid()
      modifies manager`log, manager`session, manager`store
      ensures manager.Valid()
      ensures var s := old(manager.store);
              var user := FederatedUser(userId, TYPE_USER);
              var body := [Call.GetFederatedUser(userId, TYPE_USER), Call.AddMember(circleId, user)];
              var ks := FirstRefusal(manager.env, s, OccasionStarts(circleId));
              var kb := FirstRefusal(manager.env, s, body);
              && manager.log == old(manager.log) + Bracket(manager.env, s, OccasionStarts(circleId), Upto(body, kb), OccasionSession(circleId))
              && (ks < 2 ==> r == Thrown(manager.env, s, OccasionStarts(circleId), ks))
              && (ks == 2 && kb < 2 ==> r == Thrown(manager.env, s, body, kb))
              && (ks == 2 && kb == 2 ==> && circleId in s.circles
                                         && r == Ok(FormatMember(NewMember(s.nextId, user, LEVEL_MEMBER))))
              && manager.store == (if ks == 2 && kb == 2 then Joined(s, circleId, user) else s)
              && manager.session == (if ks == 0 then old(manager.session)
                                     else if ks == 1 then SuperSession(true)
                                     else AfterStop(manager.env, OccasionSession(circleId)))
    {
      var entered := EnterOccasion(circleId);
      if entered.Fail? {
        return Fail(entered.message);
      }
      // try
      ghost var entry := manager.log;
      r := AddInSession(circleId, userId);
      // finally
      StopSession();
      Bracketed(manager.env, old(manager.store), old(manager.log), OccasionStarts(circleId), manager.log[|entry|..|manager.log| - 1],
                OccasionSession(circleId));
    }

    method RemoveMember(circleId: string, memberId: string) returns (r: Result<()>)
      requires manager.Valid()
      modifies manager`log, manager`session, manager`store
      ensures manager.Valid()
      ensures var s := old(manager.store);
              var body := [Call.RemoveMember(memberId)];
              var ks := FirstRefusal(manager.env, s, OccasionStarts(circleId));
              var kb := FirstRefusal(manager.env, s, body);
              && manager.log == old(manager.log) + Bracket(manager.env, s, OccasionStarts(circleId), Upto(body, kb), OccasionSession(circleId))
              && (ks < 2 ==> r == Thrown(manager.env, s, OccasionStarts(circleId), ks))
              && (ks == 2 && kb < 1 ==> r == Thrown(manager.env, s, body, kb))
              && (ks == 2 && kb == 1 ==> r == Ok(()))
              && manager.store == (if ks == 2 && kb == 1 then Removed(s, memberId) else s)
              && manager.session == (if ks == 0 then old(manager.session)
                                     else if ks == 1 then SuperSession(true)
                                     else AfterStop(manager.env, OccasionSession(circleId)))
    {
      ghost var body := [Call.RemoveMember(memberId)];
      var entered := EnterOccasion(circleId);
      if entered.Fail? {
        return Fail(entered.message);
      }
      // try
      ghost var entry := manager.log;
      r := manager.RemoveMember(memberId);
      FirstRefusalIs(manager.env, old(manager.store), body, if r.Fail? then 0 else 1);
      // finally
      StopSession();
      Bracketed(manager.env, old(manager.store), old(manager.log), OccasionStarts(circleId), manager.log[|entry|..|manager.log| - 1],
                OccasionSession(circleId));
    }

    method SetMemberLevel(circleId: string, memberId: string, level: int) returns (r: Result<()>)
      requires manager.Valid()
      modifies manager`log, manager`session, manager`store
      ensures manager.Valid()
      ensures var s := old(manager.store);
              var body := [Call.LevelMember(memberId, level)];
              var ks := FirstRefusal(manager.env, s, OccasionStarts(circleId));
              var kb := FirstRefusal(manager.env, s, body);
              && manager.log == old(manager.log) + Bracket(manager.env, s, OccasionStarts(circleId), Upto(body, kb), OccasionSession(circleId))
              && (ks < 2 ==> r == Thrown(manager.env, s, OccasionStarts(circleId), ks))
              && (ks == 2 && kb < 1 ==> r == Thrown(manager.env, s, body, kb))
              && (ks == 2 && kb == 1 ==> r == Ok(()))
              && manager.store == (if ks == 2 && kb == 1 then Leveled(s, memberId, level) else s)
              && manager.session == (if ks == 0 then old(manager.session)
                                     else if ks == 1 then SuperSession(true)
                                     else AfterStop(manager.env, OccasionSession(circleId)))
    {
      ghost var body := [Call.LevelMember(memberId, level)];
      var entered := EnterOccasion(circleId);
      if entered.Fail? {
        return Fail(entered.message);
      }
      // try
      ghost var entry := manager.log;
      r := manager.LevelMember(memberId, level);
      FirstRefusalIs(manager.env, old(manager.store), body, if r.Fail? then 0 else 1);
      // finally
      StopSession();
      Bracketed(manager.env, old(manager.store), old(manager.log), OccasionStarts(circleId), manager.log[|entry|..|manager.log| - 1],
                OccasionSession(circleId));
    }
  }
}
