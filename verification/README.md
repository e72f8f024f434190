# HR attendance client: role resolution, dashboard selection and attendance logic

This project models, in Dafny, the sequential logic of a role-based HR and attendance web client.
It covers three parts:

- **Roles** (`roles.dfy`) holds the authentication helpers' role logic. It models the null-safe
  predicates for the director, manager, team-lead, employee and intern classes. It also models
  the role display-name lookup, the collapse to a simple designation and the department colour
  lookup. One table, `RoleTable`, lists the fourteen known role literals with their class and
  display title. The predicates are written as the client writes them, with literal lists and
  equality tests, and are proved to agree with that table. Mutual exclusion follows from it.
- **Session** (`session.dfy`) models the session accessors. These are get, set and clear for
  the current user, the two token writers, the token reader and `isAuthenticated`. They work
  over an abstract string-to-string store with the keys `currentUser` and `authToken`. JSON
  encoding is a parameter. JSON parsing is a parameter too: a partial parser that answers
  `None` when parsing throws or yields a falsy value.
- **Dashboard** (`dashboard.dfy`) models the dashboard page's choice among Unauthorized,
  Director, Manager, TeamLead and Employee. It is a total function of the current user.
- **Attendance** (`attendance.dfy`) models the attendance page's derived figures: today's
  record, the last-seven window, the weekly total and the guarded average. It also models the
  punch-in and punch-out handlers as pure steps over a view state: the attendance list, the
  punched-in flag and the remembered punch-in time. The current date and time, the POST reply
  and the re-fetched list are inputs.

`wrappers.dfy` holds `Option` and JavaScript truthiness of an optional string. A value is
truthy when it is present and non-empty.

## Model

| member | source | states |
|---|---|---|
| Roles.IsDirector | frontend/src/utils/auth.ts:36-43 | true exactly when the role is present and is one of the five director literals of the role table; an absent role gives false |
| Roles.IsManager | frontend/src/utils/auth.ts:45-53 | true exactly when the role is one of the six manager literals of the role table |
| Roles.IsTeamLead | frontend/src/utils/auth.ts:55 | true exactly for the role the table classes as team lead (`team_lead`) |
| Roles.IsEmployee | frontend/src/utils/auth.ts:56 | true exactly for the role the table classes as employee (`employee`) |
| Roles.IsIntern | frontend/src/utils/auth.ts:57 | true exactly for the role the table classes as intern (`intern`) |
| Roles.AbsentRoleIsNothing | frontend/src/utils/auth.ts:35-57 | an absent role satisfies none of the five predicates |
| Roles.PredicatesExclusive | frontend/src/utils/auth.ts:36-57 | no role satisfies two of the five predicates |
| Roles.PredicatesCoverTable | frontend/src/utils/auth.ts:36-75 | a role satisfies one of the predicates exactly when it is one of the fourteen literals the display map knows |
| Roles.DisplayName | frontend/src/utils/auth.ts:59-77 | absent or empty role gives `Unknown`; each of the fourteen mapped literals gives its title; any other role is returned unchanged; the result is never empty |
| Roles.DisplayNameIdentifiesKnownRole | frontend/src/utils/auth.ts:60-75 | two known roles with the same display name are the same role (the titles are distinct) |
| Roles.TitleDeterminesRole | frontend/src/utils/auth.ts:60-75 | every title of the display map is non-empty, and its length and first character recover the role literal it belongs to |
| Roles.DisplayNameExamples | frontend/src/utils/auth.ts:77 | an absent role and the empty role display as `Unknown`, `made_up_role` displays as itself, a mapped role as its title |
| Roles.SimpleDesignation | frontend/src/utils/auth.ts:80-88 | the result is one of six designations; `Director`, `Manager`, `Team Lead`, `Employee`, `Intern` each exactly when the matching predicate holds, `Staff` exactly for an absent or unknown role |
| Roles.DepartmentColor | frontend/src/utils/auth.ts:90-103 | each of the eight known departments gets its mapped class, every other string `bg-gray-500`; never empty |
| Roles.DepartmentColorIdentifies | frontend/src/utils/auth.ts:91-102 | known departments get pairwise distinct colours, none of them the grey default |
| Session.GetCurrentUser | frontend/src/utils/auth.ts:5-13 | a user is returned exactly when the `currentUser` entry exists, is non-empty and parses; it is then the parser's result |
| Session.SetCurrentUser | frontend/src/utils/auth.ts:14-16 | afterwards `currentUser` holds the encoded user and every other key reads as before |
| Session.ClearCurrentUser | frontend/src/utils/auth.ts:18-22 | afterwards `currentUser` and `authToken` are both missing and every other key reads as before |
| Session.StoreAuthToken | frontend/src/utils/auth.ts:24-26 | afterwards `authToken` holds the token and every other key reads as before |
| Session.SetAuthToken | frontend/src/utils/auth.ts:27-29 | afterwards `authToken` holds the token and every other key reads as before |
| Session.GetAuthToken | frontend/src/utils/auth.ts:31 | the token is present exactly when `authToken` is stored, and is the stored string |
| Session.IsAuthenticated | frontend/src/utils/auth.ts:33 | authenticated exactly when the stored user entry is non-empty and parses to a user |
| Session.ClearSignsOut | frontend/src/utils/auth.ts:18-33 | after clearing, for any parser, there is no current user, no token, and the session is not authenticated |
| Session.SetThenGetUser | frontend/src/utils/auth.ts:5-16 | when the parser inverts the encoder, a stored user reads back as itself, the session is authenticated, and the token is unchanged |
| Session.TokenWriteThenRead | frontend/src/utils/auth.ts:24-31 | both token writers produce the same store; the written token reads back; the current user is unchanged |
| Dashboard.Select | frontend/src/pages/Dashboard.tsx:14-40 | Unauthorized exactly for no user or an absent or empty role; Director, Manager, TeamLead exactly for roles of those classes; Employee exactly for employee, intern and unknown non-empty roles |
| Dashboard.ForStore | frontend/src/pages/Dashboard.tsx:15-23 | the page shows Unauthorized exactly when the store is not authenticated or the current user's role is falsy |
| Dashboard.SignedOutIsUnauthorized | frontend/src/pages/Dashboard.tsx:15-23 | after clearing the session the page shows Unauthorized |
| Dashboard.SelectAgreesWithDesignation | frontend/src/pages/Dashboard.tsx:25-40 | for a non-empty role the dashboard agrees with the simple designation: Director, Manager, Team Lead one to one, and the employee dashboard for Employee, Intern and Staff |
| Dashboard.SelectExamples | frontend/src/pages/Dashboard.tsx:17-38 | no user or no role gives Unauthorized; `engineering_director`, `client_relations_manager` and `team_lead` get their own dashboards |
| Dashboard.SelectFallbackExamples | frontend/src/pages/Dashboard.tsx:39-40 | `intern` and a role the application does not know (`zzz_unknown`) both get the employee dashboard |
| Attendance.SliceFrom | frontend/src/pages/Attendance.tsx:99 | JavaScript `slice(start)`: length is `min(-start, n)` for a negative start and `n - start` (at least 0) otherwise; the result is the matching suffix |
| Attendance.WeeklyWindow | frontend/src/pages/Attendance.tsx:99 | at most seven records; exactly seven when at least seven were fetched, and then the last seven in their original order; the whole list when fewer |
| Attendance.ReduceHours | frontend/src/pages/Attendance.tsx:100 | the left-to-right reduce from 0, adding each record's hours (`Hours`: `total_hours`, or 0 when missing), equals the reference sum of hours |
| Attendance.WeeklyTotal | frontend/src/pages/Attendance.tsx:99-100 | the weekly total is the reference sum of hours over the last-seven window |
| Attendance.WindowSplitsTotal | frontend/src/pages/Attendance.tsx:99-100 | the sum over the whole list is the sum over the records before the window plus the weekly total |
| Attendance.SumHoursAppend | frontend/src/pages/Attendance.tsx:100 | the sum of hours over a concatenation is the sum of the two sums |
| Attendance.SumHoursBounds | frontend/src/pages/Attendance.tsx:100 | if every record's hours lie in `[lo, hi]`, the sum lies in `[n*lo, n*hi]` |
| Attendance.AverageHours | frontend/src/pages/Attendance.tsx:101 | 0 for an empty window; otherwise average times window length equals the weekly total, so no division by zero |
| Attendance.WindowAverage | frontend/src/pages/Attendance.tsx:101 | for any window: 0 when it is empty, otherwise a value that times the window length gives the window's sum |
| Attendance.WindowBounds | frontend/src/pages/Attendance.tsx:100-101 | at most seven records with hours in `[0, cap]` sum to at most `7*cap`, and their mean lies in `[0, cap]` |
| Attendance.AverageWithinBounds | frontend/src/pages/Attendance.tsx:99-101 | when the window's hours lie in `[0, cap]`, the weekly total is in `[0, 7*cap]` and the daily average in `[0, cap]` |
| Attendance.WeeklyExample | frontend/src/pages/Attendance.tsx:99-101 | for a week with hours 8, 8, 7.5, 8, 0, missing, 8, the window is the whole week, the total is 39.5 and the average times 7 is 39.5; an empty list averages to 0 |
| Attendance.FirstIndexOn | frontend/src/pages/Attendance.tsx:38-40 | the index of the first record dated today; none exactly when no record has that date |
| Attendance.TodayRecord | frontend/src/pages/Attendance.tsx:38-40 | today's record is a record of the list dated today with no earlier record of that date; none exactly when no record is dated today |
| Attendance.PunchOutPunchIn | frontend/src/pages/Attendance.tsx:75-85 | the punch-out's `punch_in` is never empty and is one of three candidates in order: today's record's non-empty punch-in, else the remembered non-empty punch-in time, else `09:00` |
| Attendance.Refresh | frontend/src/pages/Attendance.tsx:13-31 | the list is replaced by the fetched one exactly when the user has an id and a token and the fetch succeeded; the flag and the remembered time never change |
| Attendance.Settle | frontend/src/pages/Attendance.tsx:62-67 | corrected tail of a handler (see Findings): after a reply that is OK with a JSON body, the view becomes the result of the attendance fetch (the fetched list when the user has an id and a token and the fetch succeeded); otherwise the view is untouched |
| Attendance.SettleAsWritten | frontend/src/pages/Attendance.tsx:62-67 | as written, the handler itself issues no re-fetch after a punch, whatever the reply, and leaves the view as it was |
| Attendance.AsWrittenNeverRefreshes | frontend/src/pages/Attendance.tsx:64 | after an accepted reply the handler as written issues no re-fetch and leaves the list as it was, while the corrected handler installs the fetched list |
| Attendance.PunchIn | frontend/src/pages/Attendance.tsx:42-68 | corrected handler (see Findings): the flag is set and the time remembered whatever the reply; the body `{today, now, null, present}` is posted exactly when there is a user; a re-fetch exactly on an accepted reply, after which the list is the fetched one when the user has an id and a token and the fetch succeeded; otherwise the list is unchanged |
| Attendance.PunchOut | frontend/src/pages/Attendance.tsx:70-97 | corrected handler (see Findings): the flag is cleared whatever the reply; the body has today's date, the fallback punch-in from the shown list, `now` as punch-out and status `present`; it is posted exactly when there is a user; a re-fetch exactly on an accepted reply, after which the list is the fetched one when the user has an id and a token and the fetch succeeded; otherwise the list is unchanged |
| Attendance.PunchInAsWritten | frontend/src/pages/Attendance.tsx:42-68 | the handler as written: the same flag, remembered time and request as the corrected one, but no re-fetch and an unchanged list whatever the reply |
| Attendance.PunchOutAsWritten | frontend/src/pages/Attendance.tsx:70-97 | the handler as written: the same flag and request as the corrected one, but no re-fetch and an unchanged list whatever the reply |
| Attendance.TokenlessUserStillPosts | frontend/src/pages/Attendance.tsx:42-97 | a user without `id` and `token` (a falsy non-null stored user) still gets the punch-in and punch-out requests posted, and even an accepted reply leaves the list unchanged because the fetch guard rejects that user |
| Attendance.AsWrittenDiffersOnlyInRefresh | frontend/src/pages/Attendance.tsx:62-64 | the handlers as written and as corrected post the same request and leave the same flag and remembered time; when there is no user or the reply is not accepted they agree entirely |
| Attendance.Click | frontend/src/pages/Attendance.tsx:139 | every click of the punch button flips the punched-in flag |
| Attendance.FlagFlipsRegardlessOfReply | frontend/src/pages/Attendance.tsx:42-97 | a failed punch-in leaves the flag set and a rejected punch-out leaves it cleared; nothing else changes but the remembered time |
| Attendance.PunchInThenOutKeepsTime | frontend/src/pages/Attendance.tsx:42-97 | after punching in at `t`, the punch-out posts `t` as its punch-in, unless the shown list holds a different non-empty punch-in for today |

## Left out

- HTTP transport, request headers, bearer-token formatting and JSON (de)serialization. The POST
  outcome (`PostReply`) and the re-fetched list are inputs. The encoder and parser are
  parameters.
- A fetch whose body is not an array: the page stores it as the list whatever the status. The
  model's fetched value is always a record sequence.
- Hours that arrive as strings or `NaN`: hours are modelled as `real`. The `toFixed(1)` display
  rounding and floating-point error are left out.
- React scheduling, which is event-loop behaviour rather than sequential logic. This covers the
  race between an in-flight fetch and a punch, and navigation without cancellation. It also
  covers the attendance effect (frontend/src/pages/Attendance.tsx:12-35), whose dependency is
  the `user` object. `getCurrentUser` parses a fresh object on every render, so the effect
  re-runs and re-fetches after every render that completes: continually while a user is
  signed in. After a punch, the list on screen is refreshed this way only if the re-render
  completes. That holds provided `formatTime`, which the page neither imports nor defines and
  which the punched-in view calls (frontend/src/pages/Attendance.tsx:119), resolves at run
  time; otherwise the render throws and the effect does not re-run.
- The current date and time helpers and `new Date()` formatting: "today" and "now" are opaque
  parameters. The punch-out handler reads the current date twice (lookup and body). The model
  uses one value for both.
- Object-literal lookups that hit inherited JavaScript properties (a role or department named
  `constructor` or `toString`). The maps are modelled as plain own-key tables.
- The module-level `currentUser` variable of the authentication helpers: it is written but
  never read.
- `console.error` logging; all JSX rendering and styling; the status badge colours.
- The display-only camelCase fields `totalHours`, `inTime` and `outTime`, and `formatTime`.
  These fields disagree with `total_hours`, which the weekly total reads. `formatTime` is not
  part of this model.
- Session.GetCurrentUser: a stored text that parses to another falsy value (`false`, `0`) is
  returned by the client as that value, not `null`. The model folds it into `None`.
  `isAuthenticated`, the dashboard guard and the effect's `user?.id` test only truthiness, so
  for them the fold is exact. The punch handlers read `user.token` unguarded
  (frontend/src/pages/Attendance.tsx:52 and :81), so for such a value they still post the
  request. `PunchIn` and `PunchOut` take the user as a parameter and represent that case as
  `Some(User(None, None, None))`; see `Attendance.TokenlessUserStillPosts`. Such a value also
  compares equal from one render to the next, so the effect runs once instead of looping;
  effect scheduling is not modelled.

## Findings

| source | as written | input that shows it | evidently intended | confidence | as-written member | corrected member |
|---|---|---|---|---|---|---|
| frontend/src/pages/Attendance.tsx:64 | After an OK reply both punch handlers call `fetchAttendance` (lines 64 and 93). That function is a `const` declared inside the effect callback (line 13), so the name is out of scope there. The call throws a ReferenceError, and the handler's catch logs the accepted punch as failed. The handler itself never re-fetches; the list on screen is refreshed by the effect re-running after the state updates only if that re-render completes, which needs the undefined `formatTime` to resolve (see Left out). | a punch-in or punch-out whose POST reply is OK with a JSON body | re-fetch the attendance list after an accepted punch, without reporting a failure | high; not executed | Attendance.PunchInAsWritten, Attendance.PunchOutAsWritten, Attendance.SettleAsWritten, Attendance.AsWrittenNeverRefreshes | Attendance.Settle (used by Attendance.PunchIn and Attendance.PunchOut) |
