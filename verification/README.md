# Team dashboard — a Dafny model of its logic

This project models the logic of a Next.js team dashboard. The dashboard has a sprint
tracker, a kanban board, an events calendar, profiles and anonymous feedback.
The rendering, the database and the HTTP plumbing are left out. What remains is
modelled as it is written in the source:

- **Sprint metrics** (`SprintMetrics`, `TeamPerformance`, `Tasks`): what `GET /api/sprints` computes for each sprint.
  - The progress percentage.
  - The velocity.
  - The day-by-day burndown.
  - The per-assignee rollup. This is built by a loop over a dictionary, modelled as a method with invariants and proved equal to a recursive specification.
- **Sprint Snap** (`SprintSnap`): how the page picks the current sprint, filters its tasks, computes its figures and falls back for missing stored fields.
- **QuickFlow** (`QuickFlow`): the kanban board.
  - Grouping the tasks into the four status columns (a method).
  - The drag-and-drop status update.
  - Resetting the create form.
  - The priority labels.
- **Events and SpeedSync** (`EventDialog`): grouping events by day and the create/edit dialog's form reducers and save request. The two pages contain the same code; the SpeedSync page holds it two lines further down (app/speedsync/page.tsx:31-38 and 85-176 against app/events/page.tsx:29-36 and 83-174), and its day heading uses a long date format. The table cites whichever page states the property, and the day heading's format is a parameter.
- **Profile** (`Profile`): the avatar initials, the initial edit form and its change handler. The initials are proved equal to an independent "word starts" reading of the name.
- **Middleware** (`Middleware`): the redirect/pass-through decision. The token lookup is a boolean input.
- **Events API** (`EventsRoute`): date parsing, the choice of the `startTime` filter, and POST validation.
- **Feedback API** (`FeedbackRoute`): the `where` object built one key at a time, with its matching semantics, and POST validation.
- **Feedback comments API** (`FeedbackComments`):
  - POST validation and the five-day expiry.
  - The unexpired comments, newest first, listed by a sort over a sequence.
- **Feedback hooks** (`FeedbackHooks`): the list URL is built from a mutable `URLSearchParams` object (a class). The detail and comments cache keys are also modelled.

Clock readings, date parsing, locale formatting, `encodeURI` and the
`URLSearchParams` serializer are passed in as parameters.

## Model

| member | source | states |
|---|---|---|
| Tasks.CountDone | app/api/sprints/route.ts:7 | the number of DONE tasks never exceeds the number of tasks |
| SprintMetrics.Progress | app/api/sprints/route.ts:8 | progress is 0 without tasks; otherwise it is between 0 and 100 and is the whole percentage nearest to done/total (within half a point, halves rounded up) |
| SprintMetrics.RoundedPercent | app/api/sprints/route.ts:8 | the integer form of `Math.round(c / t * 100)` stays in 0..100 and is within half a point of 100·c/t |
| SprintMetrics.Days | app/api/sprints/route.ts:16 | the day count is the ceiling of the sprint length in days: `DAY_MS·(n−1) < end − start ≤ DAY_MS·n` |
| SprintMetrics.Velocity | app/api/sprints/route.ts:9 | the sum of `storyPoints || 0` over the tasks; VelocityAppend, VelocityIgnoresStatus and VelocitySplitsByAssignee state its properties |
| SprintMetrics.DoneBy | app/api/sprints/route.ts:19 | the number of DONE tasks with a due date at or before the day; DoneByMonotone and DoneByAll state its properties |
| SprintMetrics.PointAt | app/api/sprints/route.ts:18-20 | the burndown point of day i: label i+1, remaining = tasks minus those done by the day |
| SprintMetrics.Burndown | app/api/sprints/route.ts:11-22 | the burndown specification that BuildBurndown is proved against; BurndownShape, BurndownRemainingBounds and BurndownNonIncreasing state its properties |
| SprintMetrics.Metrics | app/api/sprints/route.ts:4-44 | the specification of `computeSprintMetrics`: the stored sprint spread with progress, velocity, burndown and rollup; MetricsKeepsStoredFields states it |
| SprintMetrics.BuildBurndown | app/api/sprints/route.ts:11-22 | the burndown loop produces exactly the burndown specification |
| SprintMetrics.ComputeSprintMetrics | app/api/sprints/route.ts:4-44 | the computed sprint equals the specification of `computeSprintMetrics` |
| SprintMetrics.NoTasksZeroMetrics | app/api/sprints/route.ts:5-22 | with a missing or empty task list, progress and velocity are 0 and burndown and rollup are empty |
| SprintMetrics.MetricsKeepsStoredFields | app/api/sprints/route.ts:37-43 | id, dates, health, stored burndown data and tasks pass through unchanged; the stored velocity and rollup do not affect the result |
| SprintMetrics.VelocityAppend | app/api/sprints/route.ts:9 | velocity is additive over concatenation |
| SprintMetrics.VelocityIgnoresStatus | app/api/sprints/route.ts:9 | changing a task's status leaves the velocity unchanged |
| SprintMetrics.VelocitySplitsByAssignee | app/api/sprints/route.ts:9-35 | velocity equals the rollup's total points plus the points of unassigned tasks |
| SprintMetrics.AssignedPlusUnassigned | app/api/sprints/route.ts:9-31 | velocity equals assigned points plus unassigned points |
| SprintMetrics.VelocityExample | app/api/sprints/route.ts:9 | tasks with 3, missing and 5 points give velocity 8 |
| SprintMetrics.DoneByMonotone | app/api/sprints/route.ts:19 | completions counted by a later day include those by an earlier day and never exceed the DONE count |
| SprintMetrics.BurndownShape | app/api/sprints/route.ts:13-21 | the burndown has days+1 points labelled 1, 2, …, and is empty without tasks or with negative days |
| SprintMetrics.BurndownRemainingBounds | app/api/sprints/route.ts:19-20 | every remaining count lies between the number of tasks not DONE and the number of tasks |
| SprintMetrics.BurndownNonIncreasing | app/api/sprints/route.ts:17-21 | remaining never increases from one day to the next |
| SprintMetrics.DoneByAll | app/api/sprints/route.ts:19 | once every DONE task is due by a day, all DONE tasks are counted on that day |
| SprintMetrics.BurndownEndsAtOpenTasks | app/api/sprints/route.ts:16-21 | when all DONE tasks fall due within the sprint, the last point equals the number of tasks not DONE |
| SprintMetrics.SevenDaySprintExample | app/api/sprints/route.ts:8-21 | four tasks with two done on days 5 and 6 of a 7-day sprint: 50 % and remaining 4,4,4,4,4,3,2,2 |
| TeamPerformance.RollupByAssignee | app/api/sprints/route.ts:25-35 | the dictionary loop followed by `Object.values` yields exactly the rollup specification |
| TeamPerformance.Assignees | app/api/sprints/route.ts:26-30 | the truthy assignee ids in order of their first task; AssigneesAreTheAssignedKeys, AssigneesDistinct and AssigneesInFirstEncounterOrder state it |
| TeamPerformance.Entries | app/api/sprints/route.ts:29-35 | one entry per listed id, in order; EntriesAt states it |
| TeamPerformance.Rollup | app/api/sprints/route.ts:25-35 | the rollup specification that RollupByAssignee is proved against; RollupEntries and RollupPartitionsAssignedTasks state its properties |
| TeamPerformance.AssigneesAreTheAssignedKeys | app/api/sprints/route.ts:27-30 | an id gets an entry if and only if some task has it as a truthy assignee id |
| TeamPerformance.AssigneesDistinct | app/api/sprints/route.ts:28-30 | no assignee gets two entries |
| TeamPerformance.FirstIndex | app/api/sprints/route.ts:28-29 | every listed assignee has a first task: the task at that index is assigned to it and no earlier one is |
| TeamPerformance.AssigneesInFirstEncounterOrder | app/api/sprints/route.ts:28-35 | entries are ordered by the position of each assignee's first task |
| TeamPerformance.NameFromFirstTask | app/api/sprints/route.ts:28-29 | an entry's name is the assignee name on that assignee's first task, or '' |
| TeamPerformance.UnlistedKeyHasNoTasks | app/api/sprints/route.ts:27-33 | an id without an entry has zero tasks, zero completed and zero points |
| TeamPerformance.CompletedAtMostTasks | app/api/sprints/route.ts:32-33 | an assignee's completed count never exceeds its task count |
| TeamPerformance.ListedKeyHasTasks | app/api/sprints/route.ts:28-32 | every entry counts at least one task |
| TeamPerformance.EntriesAt | app/api/sprints/route.ts:35 | the j-th listed entry is the entry of the j-th assignee |
| TeamPerformance.RollupEntries | app/api/sprints/route.ts:25-35 | one entry per assignee, with that assignee's task count, DONE count and point sum, and 1 ≤ tasks, completed ≤ tasks |
| TeamPerformance.TotalsStep | app/api/sprints/route.ts:31-33 | adding one task changes the totals over distinct ids by exactly that task's share |
| TeamPerformance.RollupPartitionsAssignedTasks | app/api/sprints/route.ts:25-35 | the entries' tasks, completed and points add up to the assigned tasks, assigned DONE tasks and assigned points |
| TeamPerformance.NewAssigneeTotals | app/api/sprints/route.ts:28-33 | the totals step when a task brings a new assignee |
| TeamPerformance.NoTasksNoEntries | app/api/sprints/route.ts:25-35 | no tasks give an empty rollup |
| TeamPerformance.KnownAssigneeStep | app/api/sprints/route.ts:31-33 | a further task of a listed assignee adds its points, one task and (if DONE) one completion to that entry only |
| TeamPerformance.NewAssigneeStep | app/api/sprints/route.ts:28-33 | a task of a new assignee appends an entry holding that task's name, points, one task and its completion |
| TeamPerformance.TwoTasksOneAssignee | app/api/sprints/route.ts:25-35 | two tasks of one assignee (2 and 3 points, one DONE) give a single entry with 5 points, 2 tasks and 1 completed |
| SprintSnap.SprintTasks | app/sprint-snap/page.tsx:22-25 | no tasks or no current sprint give an empty list |
| SprintSnap.SprintPage | app/sprint-snap/page.tsx:21-39 | "No sprint found." exactly when there is no current sprint; otherwise the totals, the DONE count and the progress are those of the current sprint's tasks (the `sprintId` filter, whose content SprintTasksExact gives), and completed + remaining = total, with remaining ≥ 0 |
| SprintSnap.CurrentIsFirst | app/sprint-snap/page.tsx:21 | the current sprint is the first listed sprint, and there is none for a missing or empty list |
| SprintSnap.CurrentSprint | app/sprint-snap/page.tsx:21 | `sprints?.[0]`; CurrentIsFirst states it |
| SprintSnap.SprintTasksExact | app/sprint-snap/page.tsx:22-25 | the sprint's tasks are exactly the tasks carrying the current sprint's id, each as often as it was loaded, in their original order |
| SprintSnap.SnapshotProgress | app/sprint-snap/page.tsx:30-33 | progress is 0 without tasks, and otherwise the whole percentage nearest to completed/total |
| SprintSnap.SnapshotFallbacks | app/sprint-snap/page.tsx:35-39 | missing velocity, health, burndown and team fields show as 0, 'Unknown', [] and []; present ones are shown as they are |
| SprintSnap.ListedSprintNeedsNoFallback | app/sprint-snap/page.tsx:35-39 | for a sprint as listed by the sprints route, the page shows the computed velocity and rollup |
| QuickFlow.GroupByStatus | app/quickflow/page.tsx:89-93 | the grouping has exactly the four status keys, and each holds the tasks of that status in list order |
| QuickFlow.Column | app/quickflow/page.tsx:89-93 | the tasks of one status in list order; ColumnMembership, ColumnKeepsOrder and ColumnSizesAddUp state it |
| QuickFlow.OnDrop | app/quickflow/page.tsx:97-110 | there is no request without a dragged task or when the status is unchanged; otherwise a PUT to `/api/tasks/{id}` of the same task with only the status replaced |
| QuickFlow.AfterCreate | app/quickflow/page.tsx:113-132 | a successful create resets the form to blanks with TODO/MEDIUM; a failed one keeps it |
| QuickFlow.PriorityLabel | app/quickflow/page.tsx:232 | a label keeps its first character and lower-cases the rest |
| QuickFlow.ColumnMembership | app/quickflow/page.tsx:89-93 | a task is in column c if and only if its status is c; a task with an unknown status is in no column |
| QuickFlow.ColumnKeepsOrder | app/quickflow/page.tsx:91-93 | each column keeps the tasks' relative order |
| QuickFlow.ColumnSizesAddUp | app/quickflow/page.tsx:89-93 | the four column sizes add up to the number of tasks with a known status |
| QuickFlow.ResetRestoresInitialForm | app/quickflow/page.tsx:127 | the form after a successful create equals the page's initial form (lines 46-54) |
| QuickFlow.LabelRoundTrip | app/quickflow/page.tsx:232 | upper-casing the label of an all-capitals priority gives back the priority |
| QuickFlow.PriorityLabels | app/quickflow/page.tsx:232 | LOW, MEDIUM and HIGH are labelled Low, Medium and High |
| EventDialog.GroupByDay | app/events/page.tsx:29-36 | the groups' keys are the day headings of the events' starts, and each group holds exactly that day's events in input order |
| EventDialog.Group | app/events/page.tsx:29-36 | the events whose day heading is the given one, in input order; EventInExactlyOneGroup states it |
| EventDialog.EventInExactlyOneGroup | app/speedsync/page.tsx:31-38 | an event belongs to its own day's group and to no other; groups are subsequences of the event list |
| EventDialog.OpenCreateDialog | app/events/page.tsx:43-54 | an open create dialog with a blank ONE_TIME form, no attendees, no id and no error: the page's first dialog state (lines 43-54) with the dialog shown, as `openCreateDialog` (lines 83-96) writes it |
| EventDialog.AttendeeIds | app/events/page.tsx:108 | the ids of the attendees, one per attendee, in order |
| EventDialog.OpenEditDialog | app/events/page.tsx:99-112 | an open edit dialog holding the event's id, title and type; its times are the first 16 characters; its description is the event's, or '' when missing; its attendee ids are in order |
| EventDialog.HandleFormChange | app/events/page.tsx:115-117 | the named input's field takes the value; every other field is unchanged |
| EventDialog.HandleAttendeeChange | app/events/page.tsx:120-127 | the attendee list becomes the toggle of the id (so ToggleFlipsOnlyId, ToggleShape and ToggleTwiceRestores apply: the other selected ids stay, in order); the id's selection flips and no other form field changes |
| EventDialog.Toggle | app/events/page.tsx:121-125 | `includes(id) ? filter(aid => aid !== id) : [...ids, id]`; ToggleFlipsOnlyId, ToggleShape and ToggleTwiceRestores state it |
| EventDialog.HandleTypeChange | app/events/page.tsx:130-132 | the type is set and nothing else changes |
| EventDialog.ToggleFlipsOnlyId | app/events/page.tsx:120-127 | toggling flips the membership of that id and of no other id |
| EventDialog.ToggleShape | app/speedsync/page.tsx:122-129 | deselecting removes every copy of the id and keeps every other id as often as before and in order; selecting appends the id |
| EventDialog.ToggleTwiceRestores | app/speedsync/page.tsx:122-129 | selecting and then deselecting an id restores the list |
| EventDialog.SubmitRequest | app/events/page.tsx:135-161 | create mode POSTs to `/api/events` and edit mode PUTs to `/api/events/{id}`; in both, the payload is the form's title, description, times, type and attendee ids |
| EventDialog.AfterSubmit | app/speedsync/page.tsx:164-175 | a successful save closes the dialog; otherwise the dialog stays as it was with the server's error or "Failed to save event."; the form is untouched |
| EventDialog.EditSaveRoundTrip | app/events/page.tsx:99-161 | saving an unchanged edit PUTs to `/api/events/{id}` the event's title, description (or ''), type and attendee ids, and each time cut to its first 16 characters; a time comes back unchanged if and only if it has at most 16 characters, so an ISO time from the API loses its seconds, milliseconds and zone |
| Profile.Split | app/profile/client.tsx:159 | `split(' ')` always yields at least one piece; its meaning is stated by SplitMeaning and SplitIsUnique |
| Profile.Join | app/profile/client.tsx:159 | `join(' ')`, the inverse that SplitMeaning states `split(' ')` against |
| Profile.SplitMeaning | app/profile/client.tsx:159 | no piece contains a space, and joining the pieces with single spaces gives back the name |
| Profile.SplitIsUnique | app/profile/client.tsx:159 | any non-empty list of space-free pieces that joins to the name is exactly its split |
| Profile.Firsts | app/profile/client.tsx:160-161 | at most one character per piece |
| Profile.GetInitials | app/profile/client.tsx:156-163 | a missing or empty name gives 'U'; otherwise there is at most one initial per piece |
| Profile.FirstsAreWordStarts | app/profile/client.tsx:158-162 | the split/map/join chain picks exactly the non-space characters that start the name or follow a space |
| Profile.InitialsAreUpperWordStarts | app/profile/client.tsx:156-163 | a non-empty name's initials are its word starts, upper-cased |
| Profile.FirstsSkipEmptyParts | app/profile/client.tsx:159-161 | empty pieces contribute nothing, and each non-empty piece contributes one character |
| Profile.InitialsCount | app/profile/client.tsx:158-162 | the number of initials equals the number of non-empty pieces |
| Profile.LeadingSpaceIgnored | app/profile/client.tsx:159-161 | a leading space does not change the initials |
| Profile.TrailingSpaceIgnored | app/profile/client.tsx:159-161 | a trailing space does not change the initials |
| Profile.DoubleSpaceIgnored | app/profile/client.tsx:159-161 | two spaces in a row act as one |
| Profile.TwoWordExample | app/profile/client.tsx:156-163 | "ada lee" gives "AL" |
| Profile.BlankNameExample | app/profile/client.tsx:157-162 | a name of spaces gives the empty string, while a missing or empty name gives 'U' |
| Profile.InitialForm | app/profile/client.tsx:48-55 | each null profile field starts as ''; present fields start as they are |
| Profile.HandleInputChange | app/profile/client.tsx:57-63 | the named field takes the value; every other field is unchanged |
| Profile.SameValueNoChange | app/profile/client.tsx:57-63 | re-entering a field's current value changes nothing |
| Profile.EditsCompose | app/profile/client.tsx:57-63 | the last edit to a field wins, and edits to different fields commute |
| Middleware.Decide | middleware.ts:5-38 | outside production every request passes; a redirect carrying a callback goes to /login with the encoded path |
| Middleware.IsPublicRoute | middleware.ts:14-17 | `publicRoutes.some(...)`; PublicRoutes states it |
| Middleware.PublicRoutes | middleware.ts:14-17 | a path is public if and only if it is /login, /register or /, or starts with /api/auth |
| Middleware.DecisionTable | middleware.ts:26-37 | in production: no token on a non-public path redirects to /login with the callback; a token on /login or /register redirects to /; everything else passes |
| Middleware.PublicNeverRedirectsAnonymous | middleware.ts:26-37 | an unauthenticated request for a public path is never redirected |
| Middleware.NoRedirectLoop | middleware.ts:26-35 | the target of every redirect is let through for the same user |
| Middleware.AuthPrefixIsTextual | middleware.ts:15-16 | "/api/authz" counts as public, because the prefix test is textual |
| EventsRoute.ParseDate | app/api/events/route.ts:5-9 | nothing for a missing or empty string; otherwise the parser's result, which is nothing for an invalid date |
| EventsRoute.SelectWhere | app/api/events/route.ts:14-38 | a valid date gives the local day [midnight, next midnight); an invalid date gives 400; start and end together give an inclusive range or 400 if either is invalid; otherwise no filter |
| EventsRoute.Matches | app/api/events/route.ts:22-37 | `gte`/`lt` and `gte`/`lte` on `startTime`, and everything without a filter; RangeEnds and LoneBoundIgnored state it |
| EventsRoute.DateTakesPrecedence | app/api/events/route.ts:19-28 | with a date parameter, start and end do not affect the result |
| EventsRoute.LoneBoundIgnored | app/api/events/route.ts:18-38 | with no date and only one of start or end, every event matches and the status is 200 |
| EventsRoute.RangeEnds | app/api/events/route.ts:22-35 | the start/end range includes both ends; the day range excludes its upper end |
| EventsRoute.BadRequestNeedsUnparseableInput | app/api/events/route.ts:19-31 | a 400 happens only when a parameter that is used fails to parse |
| EventsRoute.ValidateEvent | app/api/events/route.ts:57-75 | 400 if and only if a required field is falsy or attendeeIds is not an array; otherwise 201 with the body's fields and the attendee ids |
| EventsRoute.RequiredFieldsCheckedFirst | app/api/events/route.ts:59-64 | a body failing both checks is reported as "Missing required fields" |
| EventsRoute.AttendeeListExamples | app/api/events/route.ts:62-64 | an empty attendee array is accepted; a missing one is rejected |
| FeedbackRoute.BuildWhere | app/api/feedback/route.ts:7-19 | each key is present exactly when its parameter is truthy; no parameters give the empty filter; a row matches if and only if it satisfies every given parameter |
| FeedbackRoute.ContainsInsensitive | app/api/feedback/route.ts:16-17 | `contains` with `mode: 'insensitive'`; SearchIgnoresCase and EmptySearchMatchesEverything state it |
| FeedbackRoute.Matches | app/api/feedback/route.ts:11-19 | the rows a `where` object lets through; BuildWhere states it against the request |
| FeedbackRoute.LowerOfUpper | app/api/feedback/route.ts:16-17 | lower-casing an upper-cased string is lower-casing it |
| FeedbackRoute.SearchIgnoresCase | app/api/feedback/route.ts:14-19 | upper-casing the query or the text does not change a search match |
| FeedbackRoute.EmptySearchMatchesEverything | app/api/feedback/route.ts:14 | an empty search parameter adds no clause |
| FeedbackRoute.ValidateFeedback | app/api/feedback/route.ts:33-49 | 400 if and only if one of the five fields is falsy; otherwise 201 with exactly those five fields |
| FeedbackComments.PostComment | app/api/feedback-comments/route.ts:18-37 | 400 if and only if content or aboutUserId is falsy; otherwise createdAt is now and expiresAt is exactly 432 000 000 ms later |
| FeedbackComments.Insert | app/api/feedback-comments/route.ts:9 | inserting into a newest-first list keeps it newest-first and adds exactly that comment |
| FeedbackComments.InsertNotNewer | app/api/feedback-comments/route.ts:9 | nothing inserted behind the head is newer than the head |
| FeedbackComments.SortNewestFirst | app/api/feedback-comments/route.ts:9 | the result is ordered newest first and is a permutation of the input |
| FeedbackComments.ListComments | app/api/feedback-comments/route.ts:5-14 | the unexpired comments sorted newest first; ListedAreTheUnexpired, VisibleForFiveDays and ListingIsStable state it |
| FeedbackComments.ListedAreTheUnexpired | app/api/feedback-comments/route.ts:5-14 | GET lists exactly the comments expiring after now, with their multiplicities, newest first |
| FeedbackComments.Stored | app/api/feedback-comments/route.ts:24-32 | the stored comment carries the posted content and subject, is created at the posting instant and expires exactly 432 000 000 ms (five days) later |
| FeedbackComments.VisibleForFiveDays | app/api/feedback-comments/route.ts:6-32 | a posted comment is listed from its creation instant until just before five days later, and never after |
| FeedbackComments.ListingIsStable | app/api/feedback-comments/route.ts:7-9 | listing a listing again at the same instant keeps the same comments |
| FeedbackHooks.SearchParams.constructor | lib/feedback-hooks.ts:9 | a new parameter list is empty |
| FeedbackHooks.SearchParams.Append | lib/feedback-hooks.ts:10-12 | append adds the pair at the end |
| FeedbackHooks.SearchParams.Size | lib/feedback-hooks.ts:13 | the size is the number of pairs, zero exactly when there are none |
| FeedbackHooks.FeedbackListUrl | lib/feedback-hooks.ts:7-13 | the URL is '/api/feedback' without parameters, and otherwise '/api/feedback?' followed by the serialized truthy filters |
| FeedbackHooks.ListParams | lib/feedback-hooks.ts:9-12 | the appended pairs; ListParamsShape and QueryOnlyWithFilters state it |
| FeedbackHooks.Names | lib/feedback-hooks.ts:10-12 | the parameter names, in order |
| FeedbackHooks.ListParamsShape | lib/feedback-hooks.ts:10-12 | a filter is a parameter, carrying its value, exactly when it is truthy; names follow the order category, status, search; there are at most three |
| FeedbackHooks.SubsequenceTail | lib/feedback-hooks.ts:11-12 | the status and search parameters keep their order |
| FeedbackHooks.QueryOnlyWithFilters | lib/feedback-hooks.ts:13 | there are no parameters exactly when no filter is truthy |
| FeedbackHooks.DetailKey | lib/feedback-hooks.ts:19-20 | no key for a missing or empty id; otherwise '/api/feedback/' followed by the id, which can be read back |
| FeedbackHooks.CommentsKey | lib/feedback-hooks.ts:54-57 | no key for a missing or empty id; otherwise the detail key followed by '/comments' |
| FeedbackHooks.KeysAreInjective | lib/feedback-hooks.ts:18-57 | different ids get different detail keys and different comments keys |

## Left out

- Rendering, fetching and SWR caching are not modelled. All JSX, `fetch`, `useSWR`, `mutate`, toasts and loading flags are left out. The requests a handler would send are modelled as values.
- Database calls are not modelled. Prisma's `findMany` and `create` are foreign calls. Their `where` and `data` arguments are modelled, and `findMany` is modelled as a filter. `orderBy` is modelled only in the comments route, as a sort.
- The token lookup is a boolean input. `getToken` and the session secret in middleware.ts are not part of this model.
- The middleware's `matcher` configuration is not part of this model. It is framework routing configuration, a regular expression over paths, and decides only whether the middleware runs.
- Dates are parameters. Parsing, `setHours`, `toLocaleDateString` and `format` depend on the time zone and locale, so each is an abstract function.
- The sprint model works on the millisecond timestamps of `startDate`, `endDate` and `dueDate`, taken as already parsed.
- The current time is a parameter. `Date.now()` and `new Date()` used as "now" are not modelled.
- `encodeURI` and the `URLSearchParams` serializer are opaque function parameters. `encodeURI` is the URI encoder of ECMA-262 (ECMAScript): it keeps `/ ? & = #` and writes a space as `%20`. `URLSearchParams.toString()` is the application/x-www-form-urlencoded serializer of the WHATWG URL Standard, section 5.2: it escapes `&`, `=` and `/` and writes a space as `+`.
- SprintMetrics.Progress: floating-point division is not modelled. `Math.round(c / t * 100)` is taken as exact rational rounding with halves rounded up. A double quotient a hair below a half could round differently.
- Case mapping is modelled on ASCII letters only. This affects `toUpperCase`, `toLowerCase` and the database's case-insensitive `contains`.
- Profile.InitialsCount: the count of one initial per non-empty piece holds only for characters whose upper-case form is one character.
- `Object.keys`, `Object.values` and `Object.entries` on a string-keyed object are modelled as insertion order. JavaScript lists integer-like keys first, in numeric order. This affects `teamMap` (ids are cuid strings in practice) and the order of the day groups on the event pages.
- EventDialog.GroupByDay: its result is a map, so the order in which the day groups are rendered is not modelled.
- Keys inherited from `Object.prototype` are not modelled. `grouped[task.status]` and `teamMap[id]` would find one for a status or id such as "constructor".
- `GET /api/sprints` returns the sprints in the store's order. That order is the store's and is not modelled.
- `POST /api/sprints` is not part of this model. It only forwards the body to the store.
- The other routes (tasks, users, boards, upload, profile) are not part of this model. They only forward to the store.
- Deleting an event and fetching the events list are not modelled. They only request the API.
- `handleProfileUpdate`, the avatar upload and `formatDate` on the profile page are not modelled. They only request the API or format dates.
- QuickFlow's `onDragStart` is not modelled. It only stores the dragged task.
- QuickFlow's create-form `onChange` setters are not modelled. They are one-field spreads of the same kind as `HandleFormChange`.
- The feedback list's ordering is not modelled: `orderBy: { createdAt: 'desc' }` in app/api/feedback/route.ts is left to the store. Among comments with equal `createdAt`, the order of the listing is not specified.
- EventDialog.EditSaveRoundTrip: the PUT handler in app/api/events/[id]/route.ts is not part of this model. It parses the cut `yyyy-MM-ddTHH:mm` time with `new Date`, which reads a time without zone as local time, so an unchanged save drops the seconds and milliseconds and may shift the times by the server's offset from UTC.
- Profile.Firsts: characters are Unicode scalar values, while JavaScript indexes strings by UTF-16 code units. For a piece starting with a character outside the Basic Multilingual Plane, `part[0]` is a lone high surrogate, and the model takes the whole character.
- Profile.GetInitials: for the same reason, a name such as "😀 ann" gives a lone surrogate followed by "A" in the source, and the whole emoji followed by "A" in the model.
- EventDialog.OpenEditDialog: `slice(0, 16)` counts UTF-16 code units and the model counts characters; the two agree on the ASCII ISO times the API sends.
- Runtime exceptions on the request paths are not modelled. A malformed JSON body, a database error and the route's 500 answers are left out.
