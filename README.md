# Circles admin API: a Dafny model

This project models the administrative layer of the Nextcloud app `circlesadmin`.
The layer is a service plus two OCS controllers that list, show, create, update and delete
circles, and list, add, remove and re-level their members, on behalf of an administrator.
All group logic lives in the Nextcloud Circles engine. The layer only does four things:
- it picks the privilege session for each operation and leaves it in a `finally` block;
- it makes its engine calls in a fixed order;
- it corrects the configuration of a newly created circle with a direct row update;
- it flattens engine objects into arrays and maps outcomes to HTTP statuses.

Files:

- `wrappers.dfy`: `Option` for PHP's nullable values. `Result` for a call that returns or
  throws an exception with a message.
- `text.dfy`: PHP's decimal rendering of an `int` when it is concatenated to a string, with
  its inverse.
- `engine.dfy`: a stand-in for the Circles engine.
  - The `CirclesManager` class holds the ambient `session`, the `log` of every call made to
    it, and the circle table `store`.
  - A call throws when `env.faults` lists it, or when it names an unknown circle, member or
    user. Otherwise it acts on the table. A `stopSession()` call is recorded with the session
    it ends, so stops of different sessions fail independently.
  - `UpdateCircleRow` is the direct `UPDATE circles_circle` statement.
- `format.dfy`: `levelName`, `userTypeName`, `formatCircle` and `formatMember`, and the
  `foreach` loops that format whole lists.
- `admin_service.dfy`: `CirclesAdminService`. Each public operation is a method on the
  engine's state.
- `http.dfy`: `DataResponse`, the status constants, and the table of success and failure
  statuses per handler.
- `circle_api.dfy` and `member_api.dfy`: the controllers' handlers. Each is a function of
  its inputs and of the service operation it calls.

Each service operation is specified by its plan: the engine calls it makes, in order, when
nothing fails. The plan has two parts:
- the session calls made before `try`;
- the calls of the `try` block.

`FirstRefusal` gives the first call the engine refuses, evaluated on the table as it was
when the operation began. Every method states four things:
- the calls it leaves in the log: the plan up to and including the refused call, then the
  `finally` block's stop exactly when the session calls all succeeded;
- its result: the refused call's exception, or the formatted value;
- the new table;
- the session it leaves open.

`BracketIsTrace` and `UpdateIsTrace` show that this two-level statement is the whole plan cut
at its first refusal.

Three behaviours of the code that the contracts make explicit:

- The session calls stand before `try` (lines 50, 85-86 and 112-113 of
  `lib/Service/CirclesAdminService.php`), so the `finally` block does not cover them: when
  one of them throws, `stopSession` does not run and the session opened so far stays open.
- `updateCircle` stops the session twice: once inside `try` (line 122), where a failure is
  the operation's exception, and once in `finally` (line 129), where a failure is swallowed.
  When the first stop succeeds and the second fails, the circle is still returned and the
  super session of line 123 stays open.
- `createCircle` writes configuration 0 to the new row. It still returns the engine's
  circle object as created under the application session, configuration 2.
  `CirclesAdminService.CreateCircle` states both.
- A member's status is copied as the engine reports it. The model keeps it as an opaque
  string.

## Model

| member | source | states |
|---|---|---|
| AdminService.FirstRefusal | lib/Service/CirclesAdminService.php:111-131 | the index of the first refused call of a plan: every earlier call is accepted, and that call is refused |
| AdminService.ThenIsUpto | lib/Service/CirclesAdminService.php:116-127 | running one block of calls and, if none is refused, the next, is running their concatenation up to its first refusal |
| AdminService.BracketIsTrace | lib/Service/CirclesAdminService.php:84-109 | the session calls cut at their first refusal, or all of them then the try block's calls and the finally stop, are the whole plan cut at its first refusal with the stop exactly when the try block was entered |
| AdminService.UpdateIsTrace | lib/Service/CirclesAdminService.php:111-131 | the calls updateCircle makes are its full plan (sessions, edits, stop, super session, fetch) cut at the first refusal, plus the finally stop when the sessions succeeded |
| AdminService.EditedStore | lib/Service/CirclesAdminService.php:116-121 | the edits applied before a refusal change no circle's existence, the listing order or the id counter |
| AdminService.ReadBackUnchanged | lib/Service/CirclesAdminService.php:122-124 | the read-back after the edits is refused exactly as it would be on the table before them |
| AdminService.DescriptionToWrite | lib/Service/CirclesAdminService.php:98-100 | only a non-null, non-empty description is written; over a new row's empty description this leaves what `$description ?? ''` returns |
| AdminService.DescriptionOrEmpty | lib/Service/CirclesAdminService.php:104 | the given description, empty exactly when none or an empty one is given |
| AdminService.CreatedCircleReadsBack | lib/Service/CirclesAdminService.php:94-104 | the created row has the given name and owner, configuration 0, and the description createCircle returns (empty when none or an empty one is given) |
| AdminService.CirclesAdminService.StopSession | lib/Service/CirclesAdminService.php:42-47 | one stopSession call, of the open session, is made; a failure of it is swallowed and leaves the session as it was |
| AdminService.CirclesAdminService.EnterRead | lib/Service/CirclesAdminService.php:50 | the super session is requested; on failure the exception is the result and the session is unchanged |
| AdminService.CirclesAdminService.EnterApp | lib/Service/CirclesAdminService.php:85-86 | super session then the circlesadmin application session, each only if the one before succeeded |
| AdminService.CirclesAdminService.EnterOccasion | lib/Service/CirclesAdminService.php:112-113 | super session with the flag set, then an occasional session for the circle as a single-type user |
| AdminService.CirclesAdminService.ListAll | lib/Service/CirclesAdminService.php:49-66 | all circles formatted one for one in the engine's order, or the refused call's exception; the stop follows exactly when the session was entered |
| AdminService.CirclesAdminService.GetCircle | lib/Service/CirclesAdminService.php:68-82 | the circle's view, its description and its members formatted in order, or the exception |
| AdminService.CirclesAdminService.CreateInSession | lib/Service/CirclesAdminService.php:87-105 | owner lookup, creation and row update in order; the table after each step; the returned view is the engine's object with the given description or '' |
| AdminService.CirclesAdminService.CreateCircle | lib/Service/CirclesAdminService.php:84-109 | as CreateInSession inside the application session; on success the stored row is open (0) while the returned view reports the engine's personal configuration (2) |
| AdminService.CirclesAdminService.ApplyEdits | lib/Service/CirclesAdminService.php:116-121 | a rename only when a name is given, then a new description only when one is given, stopping at the first exception |
| AdminService.CirclesAdminService.ReadBackCircle | lib/Service/CirclesAdminService.php:122-127 | stop of the open session (not swallowed), super session, fetch; the fresh circle with its stored description; the session left is the old one, none, or the plain super session, by where the first refusal falls |
| AdminService.CirclesAdminService.UpdateInSession | lib/Service/CirclesAdminService.php:114-127 | the edits, then the read-back only when every edit succeeded; the table holds exactly the edits made; the session is unchanged when an edit fails, otherwise the read-back's |
| AdminService.CirclesAdminService.UpdateCircle | lib/Service/CirclesAdminService.php:111-131 | calls, result, table and session of updateCircle for every point of failure; the result never depends on the finally stop, which ends the session the try block left (the plain super session after a read-back) or leaves it open when it fails |
| AdminService.FinallyStopFailureReachable | lib/Service/CirclesAdminService.php:122-130 | when only the stop of the read-back's super session fails, an update of an existing circle passes its sessions, edits and read-back, and that super session stays open |
| AdminService.CirclesAdminService.DestroyCircle | lib/Service/CirclesAdminService.php:133-141 | the circle is gone exactly when both sessions and the destroy call succeeded; otherwise the table is unchanged |
| AdminService.CirclesAdminService.GetMembers | lib/Service/CirclesAdminService.php:143-155 | the circle's members formatted one for one in order, or the exception |
| AdminService.CirclesAdminService.AddInSession | lib/Service/CirclesAdminService.php:160-163 | user lookup then addMember; the formatted new member at level Member, or the exception with the table unchanged |
| AdminService.CirclesAdminService.AddMember | lib/Service/CirclesAdminService.php:157-167 | the member joins exactly when both sessions and both calls succeeded |
| AdminService.CirclesAdminService.RemoveMember | lib/Service/CirclesAdminService.php:169-177 | the membership is removed exactly when both sessions and the call succeeded |
| AdminService.CirclesAdminService.SetMemberLevel | lib/Service/CirclesAdminService.php:179-187 | the level, unchecked, is set exactly when both sessions and the call succeeded |
| Engine.CirclesManager.UpdateCircleRow | lib/Service/CirclesAdminService.php:94-101 | the row with the given unique id gets the configuration and, when given, the description; no matching row changes nothing |
| Format.LevelName | lib/Service/CirclesAdminService.php:228-236 | each known level has its name and only that level has it; any other level gets "Unknown (n)" |
| Format.LevelNameRoundTrip | lib/Service/CirclesAdminService.php:228-236 | every level, known or not, is recovered from its name, so no two levels share a name |
| Format.UserTypeName | lib/Service/CirclesAdminService.php:215-226 | the seven known user types have their names, exclusively; any other type gets "Unknown (n)" |
| Format.UserTypeNameRoundTrip | lib/Service/CirclesAdminService.php:215-226 | every user type is recovered from its name |
| Format.UnknownLabel | lib/Service/CirclesAdminService.php:224 | the fallback label is the code framed by "Unknown (" and ")" |
| Format.UnknownCodeOfLabel | lib/Service/CirclesAdminService.php:224 | the code in an "Unknown (n)" label is read back exactly |
| Format.MemberCount | lib/Service/CirclesAdminService.php:195 | zero exactly when the members are null or empty, their number otherwise |
| Format.FormatCircle | lib/Service/CirclesAdminService.php:189-199 | id, name, config and source copied; owner's user id or null exactly when there is no owner; memberCount as MemberCount |
| Format.FormatMember | lib/Service/CirclesAdminService.php:201-213 | the view reports exactly the member's fields, with names consistent with its level and user type |
| Format.FormatMemberInverse | lib/Service/CirclesAdminService.php:201-213 | a view with consistent names is the format of the member it reports, so formatMember loses nothing |
| Format.FormatCircles | lib/Service/CirclesAdminService.php:58-61 | one view per circle, same length, same order |
| Format.FormatMembers | lib/Service/CirclesAdminService.php:147-150 | one view per member, same length, same order |
| Format.MemberList | lib/Service/CirclesAdminService.php:75 | the members iterated have the count formatCircle reports |
| Text.IntToString | lib/Service/CirclesAdminService.php:234 | PHP's rendering of an int concatenated to a string: non-empty, with a leading '-' exactly for a negative value |
| Text.ParseIntOfIntToString | lib/Service/CirclesAdminService.php:224 | PHP's rendering of an int parses back to it |
| Text.NatToStringInjective | lib/Service/CirclesAdminService.php:234 | two numbers with the same decimal rendering are equal |
| Http.DataResponse | lib/Controller/CircleApiController.php:39 | `new DataResponse($data)` carries the data with the default status 200 |
| Http.ReadFailure | lib/Controller/MemberApiController.php:37-42 | a failure read off a response has the handler's failure status and the message as its body |
| Http.ReportsRecoverable | lib/Controller/MemberApiController.php:56-61 | success and failure statuses differ for every handler, so the exception message, or its absence, is recovered from the response |
| CircleApi.NewController | lib/Controller/CircleApiController.php:30 | the acting user is the given one, or '' when null |
| CircleApi.Truthy | lib/Controller/CircleApiController.php:70 | the truth value `?:` tests: false exactly for "" and "0", true for every longer string |
| CircleApi.OwnerUserId | lib/Controller/CircleApiController.php:70 | a truthy owner is used; '' and "0" fall back to the acting user |
| CircleApi.OwnerFallsBack | lib/Controller/CircleApiController.php:70 | the owner passed on is falsy only when it is the acting user and that user is falsy |
| CircleApi.Index | lib/Controller/CircleApiController.php:37-47 | 200 with the listing, or 500 with the exception message |
| CircleApi.Show | lib/Controller/CircleApiController.php:53-63 | 200 with the circle's detail, or 404 with the message |
| CircleApi.Create | lib/Controller/CircleApiController.php:69-83 | the service gets the name, the defaulted owner and no description; 201 with the circle, or 400 |
| CircleApi.Update | lib/Controller/CircleApiController.php:89-105 | neither field gives 400 "Provide at least one of: name, description"; otherwise the service's circle with 200, or 400 |
| CircleApi.UpdateGuardSkipsService | lib/Controller/CircleApiController.php:90-95 | with neither field the response does not depend on the service, and reads as that failure |
| CircleApi.Destroy | lib/Controller/CircleApiController.php:111-122 | 200 {message: "Circle deleted"}, or 400 with the message |
| CircleApi.DestroyRecoverable | lib/Controller/CircleApiController.php:111-122 | a deletion is told apart from a failure whose message is "Circle deleted" |
| MemberApi.Index | lib/Controller/MemberApiController.php:34-44 | 200 with the members, or 404 with the message |
| MemberApi.Add | lib/Controller/MemberApiController.php:50-63 | 201 with the new member, or 400 with the message |
| MemberApi.Remove | lib/Controller/MemberApiController.php:69-80 | 200 {message: "Member removed"}, or 400 with the message |
| MemberApi.SetLevel | lib/Controller/MemberApiController.php:86-97 | the level goes to the service unchanged; 200 {message: "Level updated"}, or 400 |
| MemberApi.MemberHandlersRecoverable | lib/Controller/MemberApiController.php:34-97 | every member handler's response yields exactly the service's exception message, or none |

## Left out

- The Circles engine is a stand-in. Its real refusal rules, messages, id formats, probe
  visibility flags and member fields are not part of this model. A call fails when
  `env.faults` lists it, or on an unknown circle, member or user, an empty name, or an
  existing membership.
- AdminService.CirclesAdminService.UpdateCircle: the engine answers alike to the same call in
  the same session, so a stop that fails at line 122 fails again at line 129. The path where
  the line-122 stop throws and the `finally` stop then succeeds is not represented; the
  model leaves the occasional session open on it. Stops of different sessions, as on the
  read-back path, fail independently.
- The logger calls in the controllers' `catch` blocks are left out: they do not affect the
  response.
- `Server::get(CircleService::class)` (line 39) and the dependency injection of the
  constructors are left out: the rename and description calls are methods of the engine
  class.
- The query builder's mechanics are reduced to the one row update they perform.
- The controllers call the service through function values. The model does not compose a
  handler with the service method's effect on the engine.
- Authentication annotations (`@AdminRequired`, `@NoCSRFRequired`), `appinfo/routes.php`,
  the admin settings page and its template are left out: they are not part of the
  request-handling logic.
- Member status is an opaque string copied from the engine. The engine's real value type
  is not modelled.
- PHP's `int` is unbounded here. Levels and user types are never computed with, only
  compared and rendered.
