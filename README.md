# Fossil Energy Tracker — precommissioning logic in Dafny

The Fossil Energy Tracker follows the precommissioning of an energy plant. Work is
organised as projects, systems, subsystems, ITRs (inspection and test records),
test packs and tags. This project models the sequential business logic underneath
the application's screens:

- **ITR sign-off ledger** (`SignatureService`). An ITR's signatures live in its
  metadata. Signing checks that the ITR and the profile exist and refuses a repeated
  (user, role) pair. It appends the signature and completes the ITR (status
  `complete`, progress 100) once an inspector and an approver have both signed.
  Revoking splices out the first match and always resets the ITR to `inprogress`
  at 50.
- **Role ledger** (`UserService`, `AuthService`). Roles live in the profile's
  metadata. Assigning a role is idempotent by role name. Removing a role scans the
  profiles for the role id. `hasRole` is membership by role name.
- **Scheduled tasks** (`ScheduledTasks`), the edge function covering:
  - task dispatch;
  - the delay scan over the four tables;
  - its early exits and counts;
  - the daily, weekly and monthly firing gates;
  - the summary report.
- **Alerts** (`AlertService`): each activity-log row becomes an alert with a level,
  a message and an entity, and actions are logged with defaulted details.
- **Report settings** (`ReportService`): the singleton schedule row, which is upserted,
  and the recipients table.
- **Partial-update guards and filtered reads** (`TestPackService`,
  `SubsystemService`). A key that is present but undefined is rejected. Optional
  filters apply only when they are truthy.
- **Email request validation** (`SendEmail`): ordered checks on the parsed body,
  then the success echo.
- **Gantt chart data** (`GanttChart`): the status colour map, the merge of the four
  entity lists with their defaults, and the status filter.
- **Initials** (`ProfilePage`): `getInitials`. `src/pages/Users.tsx:27-35` and
  `src/components/Layout/UserMenu.tsx:50-58` are identical copies, so this one model
  covers all three.

The database is an in-memory store, and each service call is one atomic step:

- Tables are sequences of records.
- Classes hold the tables that a service updates in place (`SignatureLedger`,
  `RoleLedger`, `ReportStore`, `TestPackStore`, `SubsystemStore`).
- The current time, the weekday name, the day of the month and generated ids are
  parameters.
- The answer of the mail function that the scheduled tasks call is a parameter
  (`MailOutcome`).
- Timestamps are integers.

A client `.single()` read means "exactly one row, otherwise an error". A
`.maybeSingle()` read gives no row when nothing matches. `ORDER BY` is modelled as
"a permutation of the rows, sorted by the key". Strings compare in code-point order,
and `Ordering.SortBy` (an insertion sort under a total preorder) builds the ordered
result.

Shared modules:

- `Wrappers`: `Option` and `Result`.
- `Json`: parsed request bodies and JavaScript truthiness.
- `Text`: substring search, ASCII case mapping, and the printing and parsing of
  decimal numbers.
- `Seqs`: filter, map, first index and removal at an index, with their laws.
- `Ordering`: lexicographic order and sorting.
- `Patches`: a `Partial<Row>` key that may be absent, present but undefined, or
  present with a value.
- `Entities`: the row types.

Behaviour of the code that the model reproduces as written:

- The delay scan excludes projects and ITRs whose status is exactly `complete`.
  A project saved as `completed` is therefore still reported (`CompletedProjectStillReported`).
- The Gantt tab `in-progress` never shows an ITR whose status is `inprogress`
  (`InprogressItrNotUnderInProgressTab`). That is the status that revoking a
  signature writes.
- The monthly gate compares the unpadded day of the month with the stored text, so a
  stored day such as `05` never fires (`PaddedDayNeverFires`).
- A name made only of spaces gets the initials `""`, not `U`.

## Model

| member | source | states |
|---|---|---|
| SignatureService.WithSignatures | src/services/signatureService.ts:74-78 | writing a signature list stores exactly that list and keeps every other metadata key and every other column |
| SignatureService.Signed | src/services/signatureService.ts:59-108 | signing appends the signature at the end and keeps the other metadata; the ITR becomes `complete`/100 iff the list then holds an inspector and an approver, and otherwise status and progress are untouched |
| SignatureService.Revoked | src/services/signatureService.ts:178-189 | revoking removes exactly entry k of the list, keeps the other metadata and sets status `inprogress` and progress 50 whatever signatures remain |
| SignatureService.FirstWithId | src/services/signatureService.ts:164 | the result is the first index whose id matches, and None iff no entry has that id |
| SignatureService.FindSignature | src/services/signatureService.ts:158-176 | the scan finds the first ITR, in table order, that holds the id and the first matching index in it; None iff no ITR holds the id |
| SignatureService.ItrIndex | src/services/signatureService.ts:20-29 | the ITR read finds a row with the id, and fails iff no row has it |
| SignatureService.SignOffScenario | src/services/signatureService.ts:97-108 | an inspector's signature alone leaves status and progress unchanged; adding an approver completes the ITR at 100; revoking the approver gives `inprogress`/50 with only the inspector left |
| SignatureService.OtherUserSameRole | src/services/signatureService.ts:51-53 | the duplicate check keys on user and role together: another user may still sign in the same role |
| SignatureService.RevokeUndoesSign | src/services/signatureService.ts:158-189 | revoking a freshly signed id finds it where it was appended and restores the previous signature list and metadata |
| SignatureService.SignatureLedger.GetItrSignatures | src/services/signatureService.ts:126-144 | fails iff the ITR is missing; otherwise returns the stored list unchanged, [] when there is no metadata or no list |
| SignatureService.SignatureLedger.SignItr | src/services/signatureService.ts:18-124 | fails with ITR not found, then User not found, then already signed, each changing nothing; otherwise returns the new signature with the given ITR, user and role and writes only that ITR, as `Signed` states |
| SignatureService.SignatureLedger.RevokeSignature | src/services/signatureService.ts:146-204 | an unknown id fails with Signature not found and changes nothing; otherwise returns true and writes only the located ITR, as `Revoked` states |
| UserService.WithRoles | src/services/userService.ts:199-206 | writing a role list stores exactly that list and keeps the other metadata keys |
| UserService.FirstWithRole | src/services/userService.ts:182 | the first index with that role name, None iff no entry has it |
| UserService.FirstWithRoleId | src/services/userService.ts:245 | the first index with that role id, None iff no entry has it |
| UserService.CountRoleAppend | src/services/userService.ts:196 | appending an entry adds one to the count of its role name and nothing to the others |
| UserService.CountRoleZero | src/services/userService.ts:182-185 | no entry has a role name iff the existing-role search finds none |
| UserService.AssignIdempotent | src/services/userService.ts:179-185 | assigning a role name a second time leaves the list as the first assignment left it |
| UserService.AssignCount | src/services/userService.ts:179-196 | after an assignment the role name occurs exactly once when it did not occur before, and otherwise its count is unchanged |
| UserService.RepeatedAssignUnique | src/services/userService.ts:182-196 | any number of assignments of one role name never produce two entries with that name, and at least one leaves exactly one |
| UserService.FindRole | src/services/userService.ts:243-254 | the scan finds the first profile, in list order, that holds the role id and the index in it; None iff no profile holds it |
| UserService.ProfileIndex | src/services/userService.ts:146-155 | the profile read finds a row with the id, and fails iff no row has it |
| UserService.RoleLedger.GetUserRoles | src/services/userService.ts:144-163 | fails iff the profile is missing; otherwise the stored role list, [] when there is no metadata or no list |
| UserService.RoleLedger.AssignRole | src/services/userService.ts:165-225 | a missing profile fails and writes nothing; an existing role name is returned and nothing is written; otherwise one entry for the user and role is appended at the end and returned |
| UserService.RoleLedger.RemoveRole | src/services/userService.ts:227-285 | an id that no profile holds fails with Role not found and writes nothing; otherwise only the first entry with the id, in the first profile holding it, is removed and true is returned |
| AuthService.GetUserRoles | src/services/authService.ts:89-101 | [] when the profile, its metadata or its role list is missing; otherwise the stored list unchanged |
| AuthService.HasRole | src/services/authService.ts:103-106 | true iff some entry of the user's role list has that role name |
| AuthService.NoRolesNoRole | src/services/authService.ts:96-98 | a user without a profile or without a role list has no role |
| AuthService.AssignThenHasRole | src/services/authService.ts:103-106 | after an assignment `hasRole` holds for the assigned name and is unchanged for every other name |
| AlertService.LevelOf | src/services/alertService.ts:28-35 | level is error iff the action contains DELETE; warning iff UPDATE without DELETE; success iff INSERT without either; info otherwise |
| AlertService.DeleteWins | src/services/alertService.ts:29-30 | any action containing DELETE is an error, whatever else it contains |
| AlertService.UpdateOutranksInsert | src/services/alertService.ts:31-32 | an action containing UPDATE but not DELETE is a warning, even if it also contains INSERT |
| AlertService.InfoWithoutLetters | src/services/alertService.ts:28-35 | an action lacking some letter of DELETE, some letter of UPDATE and some letter of INSERT (such as SIGN_ITR or ASSIGN_ROLE) is info |
| AlertService.RecordSuffix | src/services/alertService.ts:38 | the suffix is empty for a null or empty record id; otherwise it is two longer than the id, starts with `(`, ends with `)` and holds exactly the id between them |
| AlertService.AlertOf | src/services/alertService.ts:38-46 | the alert keeps the log id and creation time, takes the table name as entity and the level from the action; its message starts with action, " in ", table, " " and what follows that head is exactly the record suffix |
| AlertService.NewestFirstIsTotalPreorder | src/services/alertService.ts:17 | newest-first order on log rows is a total preorder |
| AlertService.NewestFirstSorted | src/services/alertService.ts:17 | rows sorted newest first have non-increasing creation times |
| AlertService.PrefixIsNewest | src/services/alertService.ts:17-18 | a prefix of a permutation of the log sorted newest first is a sub-multiset of the log, and no row it leaves out is newer than any row it keeps |
| AlertService.NewestRows | src/services/alertService.ts:14-18 | the rows read: min(limit, rows) of them (limit 10 by default), a sub-multiset of the log, newest first, and every row left out no newer than every row kept |
| AlertService.RowsOfLog | src/services/alertService.ts:14-18 | a sub-multiset of the log holds only rows of the log |
| AlertService.GetAlerts | src/services/alertService.ts:12-50 | the alerts are exactly the alerts of the newest rows, in that order: min(limit, rows) of them (limit 10 by default), with non-increasing timestamps |
| AlertService.GetAlertsFromLog | src/services/alertService.ts:26 | every alert shown is the alert of some row of the log |
| AlertService.GetAlertsNewest | src/services/alertService.ts:14-26 | some sub-multiset of the log of size min(limit, rows), whose left-out rows are no newer than any of its rows, maps alert by alert onto the result |
| AlertService.LogAction | src/services/alertService.ts:52-68 | returns true and appends exactly one row with the action, table and record id; details default to {} when falsy |
| ReportService.ByEmail | src/services/reportService.ts:36 | the rows ordered by email: a permutation, sorted by email |
| ReportService.RemoveUnknownRecipient | src/services/reportService.ts:61-73 | deleting an id no recipient has leaves the table unchanged |
| ReportService.RemoveRecipientExact | src/services/reportService.ts:62-65 | after a delete a recipient remains iff it was there and its id differs |
| ReportService.ReportStore.constructor | src/services/reportService.ts:75-87 | the store starts with no schedule and no recipients |
| ReportService.ReportStore.GetReportSchedule | src/services/reportService.ts:75-87 | no row iff the schedule table is empty, otherwise its row |
| ReportService.ReportStore.GetReportRecipients | src/services/reportService.ts:32-44 | all recipients ordered by email, [] when there are none |
| ReportService.ReportStore.AddReportRecipient | src/services/reportService.ts:46-59 | inserts and returns one row with the given email and leaves the schedule alone |
| ReportService.ReportStore.RemoveReportRecipient | src/services/reportService.ts:61-73 | deletes exactly the rows with that id and returns true |
| ReportService.ReportStore.UpdateReportSchedule | src/services/reportService.ts:89-123 | the table ends with exactly one row holding the settings; an existing row keeps its id, and otherwise a new row is inserted; at most one row is kept |
| ScheduledTasks.Emails | supabase/functions/scheduled-tasks/index.ts:177 | the mail's address list is exactly every recipient row's email, in row order |
| ScheduledTasks.DelayAlertMembership | supabase/functions/scheduled-tasks/index.ts:92-160 | an alert is reported iff it is the alert of an overdue project or ITR not exactly `complete`, or of an overdue system or subsystem |
| ScheduledTasks.DelayAlertsInTableOrder | supabase/functions/scheduled-tasks/index.ts:92-160 | alerts come in table order: projects, then systems, subsystems and ITRs |
| ScheduledTasks.CompletedProjectStillReported | supabase/functions/scheduled-tasks/index.ts:96-97 | an overdue project with status `completed` is still reported |
| ScheduledTasks.OverdueSystemsAlwaysReported | supabase/functions/scheduled-tasks/index.ts:111-131 | overdue systems and subsystems are reported whatever their status |
| ScheduledTasks.NotOverdueNotReported | supabase/functions/scheduled-tasks/index.ts:96 | a row whose end date is null or not before now is never reported |
| ScheduledTasks.DelayOutcome | supabase/functions/scheduled-tasks/index.ts:162-240 | no alerts gives delays 0 and no mail; no recipients gives the alert count and no mail; a rejected mail is an error with its text; otherwise it sends the alerts to all recipients and reports both counts |
| ScheduledTasks.DelaySubjectCountsAlerts | supabase/functions/scheduled-tasks/index.ts:180 | the subject of a delay mail carries the number of alerts, read back as a decimal number |
| ScheduledTasks.PushAlerts | supabase/functions/scheduled-tasks/index.ts:101-108 | a push loop appends one alert per row, in row order |
| ScheduledTasks.CheckDelays | supabase/functions/scheduled-tasks/index.ts:88-241 | the four push loops and the early exits compute exactly `DelayOutcome` of the overdue rows |
| ScheduledTasks.DailyGate | supabase/functions/scheduled-tasks/index.ts:260-264 | the daily report fires iff it is enabled |
| ScheduledTasks.WeeklyGate | supabase/functions/scheduled-tasks/index.ts:284-296 | the weekly report fires iff it is enabled and the lower-cased weekday equals the lower-cased stored day |
| ScheduledTasks.MonthlyGate | supabase/functions/scheduled-tasks/index.ts:316-328 | the monthly report fires iff it is enabled and the unpadded day of the month equals the stored day exactly |
| ScheduledTasks.WeeklyGateIgnoresCase | supabase/functions/scheduled-tasks/index.ts:290-292 | a gate that fires still fires after upper-casing both day names, or after lower-casing the stored day |
| ScheduledTasks.WeeklyGateCaseInsensitive | supabase/functions/scheduled-tasks/index.ts:290-292 | any case variants of the stored day and of today's name give the same answer, both ways |
| ScheduledTasks.PaddedDayNeverFires | supabase/functions/scheduled-tasks/index.ts:322-324 | a stored day with a leading zero never fires |
| ScheduledTasks.MonthlyFiresOnlyOnItsDay | supabase/functions/scheduled-tasks/index.ts:322-324 | an enabled, unpadded stored day fires on that day of the month and on no other |
| ScheduledTasks.ProjectsByName | supabase/functions/scheduled-tasks/index.ts:346-349 | the projects ordered by name: a permutation, sorted by name |
| ScheduledTasks.ItrsByName | supabase/functions/scheduled-tasks/index.ts:354-357 | the ITRs ordered by name: a permutation, sorted by name |
| ScheduledTasks.ProjectRow | supabase/functions/scheduled-tasks/index.ts:379-389 | a report line keeps name, status, start and end date, with a missing progress shown as 0 |
| ScheduledTasks.ItrRow | supabase/functions/scheduled-tasks/index.ts:405-415 | an ITR line keeps name, status, start and end date, with a missing progress shown as 0 |
| ScheduledTasks.ReportOutcome | supabase/functions/scheduled-tasks/index.ts:331-463 | no recipients returns early without a mail; a rejected mail is an error; otherwise it sends the capitalised subject to all recipients and reports the recipient, project and ITR counts |
| ScheduledTasks.ReportListsEveryRow | supabase/functions/scheduled-tasks/index.ts:379-415 | a delivered report lists one line per project and per ITR, every row present, each table ordered by name |
| ScheduledTasks.GenerateAndSendReport | supabase/functions/scheduled-tasks/index.ts:331-463 | the two row loops and the early exit compute exactly `ReportOutcome` |
| ScheduledTasks.SendReport | supabase/functions/scheduled-tasks/index.ts:243-265 | a schedule table without exactly one row is an error; a closed gate returns its message; an open gate generates the report |
| ScheduledTasks.DisabledReportsNeverSend | supabase/functions/scheduled-tasks/index.ts:260-318 | a disabled daily, weekly or monthly report answers "... reports are disabled" and sends nothing |
| ScheduledTasks.RunTask | supabase/functions/scheduled-tasks/index.ts:11-86 | OPTIONS is answered first; a missing task gives 400 Task is required; an unknown task gives 400 Unknown task; a known task gives 200 iff it succeeds, and its error gives 500 otherwise |
| SendEmail.Respond | supabase/functions/send-email/index.ts:10-77 | OPTIONS is answered first; then recipients, subject and message are checked in order and the first failure decides the 400 error; a null body is a 500 |
| SendEmail.SuccessIffWellFormed | supabase/functions/send-email/index.ts:20-65 | the answer is 200 iff recipients is a non-empty array and subject and message are truthy, and it echoes the recipients unchanged |
| SendEmail.RecipientsCheckedFirst | supabase/functions/send-email/index.ts:20-25 | bad recipients give the recipients error whatever the subject and message are |
| SendEmail.MailRequestAccepted | supabase/functions/send-email/index.ts:54-65 | the request the scheduled tasks post, with recipients, subject and message filled in, is accepted |
| Patches.Apply | src/services/testPackService.ts:75-80 | an update writes a key's value when it is present and keeps the stored value otherwise |
| TestPackService.TestPackGuard | src/services/testPackService.ts:62-73 | passes iff none of the four required keys is present but undefined; otherwise the first such key, in source order, names the error |
| TestPackService.TagGuard | src/services/testPackService.ts:139-144 | passes iff neither tag_name nor test_pack_id is present but undefined; tag_name is checked first |
| TestPackService.PartialTestPackUpdatesPass | src/services/testPackService.ts:60-75 | omitting keys, or leaving the status undefined, passes the guard |
| TestPackService.PatchedPack | src/services/testPackService.ts:75-80 | an update keeps the id, writes each of the five columns whose key carries a value and keeps every other column, so an empty patch changes nothing |
| TestPackService.PatchedTag | src/services/testPackService.ts:146-151 | an update keeps the id and creation time, writes each of the four columns whose key carries a value and keeps every other column, so an empty patch changes nothing |
| TestPackService.OlderFirstIsTotalPreorder | src/services/testPackService.ts:109 | ordering by creation time is a total preorder |
| TestPackService.OlderFirstSorted | src/services/testPackService.ts:109 | rows sorted by that order have non-decreasing creation times |
| TestPackService.SelectTestPacks | src/services/testPackService.ts:5-23 | each pack of the ITR (when the name is truthy) or each pack (otherwise) as often as it is stored, no other pack, ordered by name |
| TestPackService.SelectTags | src/services/testPackService.ts:104-117 | each tag of the pack as often as it is stored and no other tag, oldest first |
| TestPackService.NoTagsNoRows | src/services/testPackService.ts:116 | a pack without tags gives [] |
| TestPackService.TestPackStore.GetTestPacks | src/services/testPackService.ts:5-23 | the filtered, ordered packs of the table |
| TestPackService.TestPackStore.GetTagsByTestPack | src/services/testPackService.ts:104-117 | the ordered tags of the pack in the table |
| TestPackService.TestPackStore.UpdateTestPack | src/services/testPackService.ts:60-88 | a failing guard writes nothing and returns its error; an unknown id writes nothing and fails; otherwise only that pack is patched and returned |
| TestPackService.TestPackStore.UpdateTag | src/services/testPackService.ts:137-159 | a failing guard writes nothing and returns its error; an unknown id writes nothing and fails; otherwise only that tag is patched and returned |
| TestPackService.TestPackStore.DeleteTestPack | src/services/testPackService.ts:90-102 | deletes exactly the packs with that id and returns true |
| TestPackService.TestPackStore.DeleteTag | src/services/testPackService.ts:161-173 | deletes exactly the tags with that id and returns true |
| TestPackService.FilterKeepsDistinct | src/services/testPackService.ts:90-102 | a pack delete keeps ids distinct and leaves no row with the id |
| TestPackService.FilterKeepsDistinctTags | src/services/testPackService.ts:161-173 | a tag delete keeps ids distinct and leaves no row with the id |
| SubsystemService.SubsystemGuard | src/services/subsystemService.ts:57-62 | passes iff neither name nor system_id is present but undefined; name is checked first |
| SubsystemService.PatchedSubsystem | src/services/subsystemService.ts:64-69 | an update keeps the id, writes each of the five columns whose key carries a value and keeps every other column, so an empty patch changes nothing |
| SubsystemService.DatesOnlyUpdatePasses | src/services/subsystemService.ts:55-70 | a patch without name and system_id passes the guard and keeps both |
| SubsystemService.SelectSubsystems | src/services/subsystemService.ts:5-23 | each subsystem of the system (when the id is truthy) or each subsystem (otherwise) as often as it is stored, no other, ordered by name, [] for an empty table |
| SubsystemService.FindSubsystem | src/services/subsystemService.ts:25-38 | no row iff no subsystem has the id, otherwise a row with that id |
| SubsystemService.FindSubsystemUnique | src/services/subsystemService.ts:25-38 | with distinct ids the read returns exactly the row with the id |
| SubsystemService.DeleteKeepsDistinct | src/services/subsystemService.ts:79-91 | a delete keeps ids distinct and leaves no row with the id |
| SubsystemService.SubsystemStore.GetSubsystems | src/services/subsystemService.ts:5-23 | the filtered, ordered subsystems of the table |
| SubsystemService.SubsystemStore.GetSubsystem | src/services/subsystemService.ts:25-38 | the row with the id, or none |
| SubsystemService.SubsystemStore.UpdateSubsystem | src/services/subsystemService.ts:55-77 | a failing guard writes nothing and returns its error; an unknown id writes nothing and fails; otherwise only that subsystem is patched and returned |
| SubsystemService.SubsystemStore.DeleteSubsystem | src/services/subsystemService.ts:79-91 | deletes exactly the rows with that id, returns true, and the id can no longer be found |
| GanttChart.StatusColor | src/components/Dashboard/GanttChart.tsx:27-42 | completed/complete, in-progress/inprogress, pending and delayed get their colours, and the default colour is given iff the status is none of these six |
| GanttChart.OrDefault | src/components/Dashboard/GanttChart.tsx:90-91 | a missing date falls back to the window bound |
| GanttChart.StatusOr | src/components/Dashboard/GanttChart.tsx:93 | an empty status falls back to `in-progress` |
| GanttChart.ProjectTask | src/components/Dashboard/GanttChart.tsx:88-94 | a project task keeps the name, takes its dates or the window bounds, progress or 0, and status or `in-progress` |
| GanttChart.SystemTask | src/components/Dashboard/GanttChart.tsx:95-101 | a system task is always `in-progress`, with completion rate or 0 |
| GanttChart.SubsystemTask | src/components/Dashboard/GanttChart.tsx:102-108 | a subsystem task is always `in-progress`, with completion rate or 0 |
| GanttChart.ItrTask | src/components/Dashboard/GanttChart.tsx:109-115 | an ITR task keeps the name, takes its dates or the window bounds, progress or 0, and status or `in-progress` |
| GanttChart.AllTasksLayout | src/components/Dashboard/GanttChart.tsx:87-116 | one task per row, in the order projects, systems, subsystems, ITRs |
| GanttChart.Entry | src/components/Dashboard/GanttChart.tsx:119-131 | a chart entry keeps start, end, completion and status, and start plus duration is end |
| GanttChart.ChartData | src/components/Dashboard/GanttChart.tsx:119-131 | one entry per task, with duration end minus start |
| GanttChart.FilteredData | src/components/Dashboard/GanttChart.tsx:133-135 | `all` returns the chart unchanged; any other filter is the chart filtered by that status, keeping each entry with the status as often as it occurs and no other |
| GanttChart.FilteredDataAppend | src/components/Dashboard/GanttChart.tsx:133-135 | filtering two runs of entries gives the two filtered runs in the same order, so a tab lists entries in chart order |
| GanttChart.InprogressItrNotUnderInProgressTab | src/components/Dashboard/GanttChart.tsx:198-202 | an ITR with status `inprogress` does not appear under the `in-progress` tab |
| GanttChart.SystemsAlwaysInProgress | src/components/Dashboard/GanttChart.tsx:95-108 | every system and subsystem appears under the `in-progress` tab |
| ProfilePage.Split | src/pages/Profile.tsx:39 | splitting on spaces gives at least one part, none containing a space |
| ProfilePage.JoinSplit | src/pages/Profile.tsx:39 | joining the parts with spaces gives the name back |
| ProfilePage.FirstCharsAreWordStarts | src/pages/Profile.tsx:39-41 | the first characters of the parts are exactly the characters that start a word |
| ProfilePage.WordStartsAppend | src/pages/Profile.tsx:39-41 | word starts of a concatenation are the word starts of each half |
| ProfilePage.NoSpaceNoWordStarts | src/pages/Profile.tsx:39-41 | a text without spaces starts no new word after its first character |
| ProfilePage.TakeTwo | src/pages/Profile.tsx:43 | a prefix of at most two characters, exactly two when there are two |
| ProfilePage.GetInitials | src/pages/Profile.tsx:36-44 | `U` for a missing or empty name, and never more than two characters |
| ProfilePage.InitialsAreWordStarts | src/pages/Profile.tsx:38-43 | the initials are the upper-cased first characters of the words, in order, cut to two |
| ProfilePage.ExtraSpacesIgnored | src/pages/Profile.tsx:38-41 | leading and doubled spaces do not change the initials |
| ProfilePage.SingleWordOneInitial | src/pages/Profile.tsx:38-43 | a single word gives its upper-cased first letter only |
| ProfilePage.TwoWordsTwoInitials | src/pages/Profile.tsx:38-43 | two words give the upper-cased first letters of both |
| Json.Property | supabase/functions/send-email/index.ts:17 | destructuring a key of the body gives its value iff the body is an object with that key |
| Text.ToLower | supabase/functions/scheduled-tasks/index.ts:290 | lower-casing maps every character and keeps the length |
| Text.ToUpper | src/pages/Profile.tsx:42 | upper-casing maps every character and keeps the length |
| Text.ToLowerIdempotent | supabase/functions/scheduled-tasks/index.ts:292 | lower-casing twice is lower-casing once |
| Text.LowerOfUpper | supabase/functions/scheduled-tasks/index.ts:292 | lower-casing an upper-cased text gives the lower-cased text |
| Text.Capitalize | supabase/functions/scheduled-tasks/index.ts:362 | the first character upper-cased, the rest unchanged |
| Text.NatToString | supabase/functions/scheduled-tasks/index.ts:322 | the printed day is all digits, without a leading zero, one character iff below ten |
| Text.ParsePrinted | supabase/functions/scheduled-tasks/index.ts:180 | reading a printed number back gives the number |
| Text.PrintInjective | supabase/functions/scheduled-tasks/index.ts:324 | two numbers that print the same are equal |
| Text.ContainsInside | src/services/alertService.ts:29 | a text contains any word put inside it |
| Text.NotContainsMissingLetter | src/services/alertService.ts:29-33 | a text lacking one of the letters of a word does not contain that word |
| Seqs.RemoveAt | src/services/signatureService.ts:167-168 | the splice removes exactly the entry at the index and keeps the others in order |
| Seqs.RemoveAppended | src/services/signatureService.ts:69 | removing the entry just appended restores the list |
| Seqs.Filter | src/components/Dashboard/GanttChart.tsx:135 | keeps the elements satisfying the predicate and no others, never growing the sequence |
| Seqs.FilterMultiset | src/components/Dashboard/GanttChart.tsx:135 | each element satisfying the predicate is kept exactly as often as it occurs; every other is dropped |
| Seqs.FilterAll | src/services/reportService.ts:62-65 | a filter every element passes changes nothing |
| Seqs.FilterPartition | src/services/reportService.ts:62-65 | the kept and dropped elements together number the whole |
| Seqs.FilterAppend | supabase/functions/scheduled-tasks/index.ts:92-160 | filtering distributes over concatenation, so kept elements keep their order |
| Seqs.FirstIndex | src/services/testPackService.ts:78 | the first index satisfying the predicate, None iff there is none |
| Seqs.LocateFirst | src/services/signatureService.ts:162-172 | the first row, and the first item in it, satisfying the predicate |
| Seqs.LocateFirstAt | src/services/userService.ts:243-254 | the scan result is the first row holding a match and the first match in it |
| Seqs.Map | supabase/functions/scheduled-tasks/index.ts:177 | one image per element, in order |
| Seqs.MapSnoc | supabase/functions/scheduled-tasks/index.ts:379-389 | one more loop step appends the image of one more row |
| Seqs.MapOfPermutation | supabase/functions/scheduled-tasks/index.ts:346-349 | reordering rows keeps every image |
| Seqs.MapFilterMember | supabase/functions/scheduled-tasks/index.ts:101-108 | an image of the filtered rows is the image of some row satisfying the filter |
| Seqs.PermutationMembers | src/services/reportService.ts:36 | a reordering has the same length and members |
| Ordering.LexLeTotal | src/services/reportService.ts:36 | any two texts are comparable |
| Ordering.LexLeTransitive | src/services/reportService.ts:36 | the text order is transitive |
| Ordering.LexLeAntisymmetric | src/services/reportService.ts:36 | two texts each ordered before the other are equal |
| Ordering.PrependSorted | src/services/reportService.ts:36 | a sorted list stays sorted when an element ordered before its head is put in front |
| Ordering.Insert | src/services/reportService.ts:36 | inserting keeps the list sorted and adds exactly the element |
| Ordering.SortBy | src/services/reportService.ts:36 | the result is a permutation of the rows, sorted by the comparator |
| Ordering.TextOrderIsTotalPreorder | src/services/reportService.ts:36 | ordering rows by a text column is a total preorder |
| Ordering.SortedByText | src/services/reportService.ts:36 | rows sorted by a text column have their keys in order |

## Left out

- The hosted database client is not modelled. Its error results (network, permissions) do not happen in the model: a store read or write always succeeds.
- `.single()` is read as "exactly one row". Under this reading the "No report schedule found" branch of the report tasks cannot be reached: an empty table already raises the client error (`ScheduledTasks.SendReport`).
- An update read through `.single()` for an unknown id returns the no-row error and writes nothing (`UpdateTestPack`, `UpdateTag`, `UpdateSubsystem`, `GetItrSignatures`, `AssignRole`).
- The activity-log inserts are not modelled: `logDatabaseActivity` in the services, the `SCHEDULED_TASK_*` row written before dispatch, and `SEND_DELAY_ALERTS` and `SEND_*_REPORT` after a send. They are side effects on a table that nothing in the core reads back.
- The HTML email bodies are not modelled as text. The model keeps the list of alerts or the two summary tables the body is built from.
- Dates are not formatted: `toLocaleDateString` and `toLocaleString` are out, so timestamps stay integers. The chart window (`setMonth` arithmetic) is a parameter.
- AlertService.GetAlerts: the alert timestamp is the raw creation time, not the locale-formatted string.
- AlertService.GetAlerts: the limit is a natural number; a negative limit is not modelled.
- The `settings` column is taken as already parsed; the `JSON.parse` of a string value is not modelled.
- The exception messages of runtime type errors (a null body, a non-string task) are abstracted to `RuntimeError`.
- The `fetch` to the mail function is replaced by its outcome, a parameter (delivered, or rejected with a text).
- The CORS headers, response headers and the `timestamp` field of responses are not modelled.
- The console logging of the send-email function, including the attachment fields, is not modelled: it has no effect on the response.
- `sendReportEmail` in `src/services/reportService.ts` is not modelled: it only logs.
- `getTestPack`, `createTestPack`, `createTag` and `createSubsystem` are not modelled: they pass the row to the client and return what it returns, without logic of their own.
- TestPackService.PatchedPack, TestPackService.PatchedTag, SubsystemService.PatchedSubsystem: the `id`, `created_at` and `updated_at` keys of a `Partial<Row>` patch are not modelled; the model always keeps the stored id and creation time, although `.update(...)` would write them if the caller passed them.
- Foreign-key cascades on delete (tags of a deleted test pack) are not modelled.
- Ordering.SortBy: the order of rows with equal keys is left unstated, as the database leaves it. String comparison is code-point order, not the database collation.
- Upper- and lower-casing are ASCII only; `getInitials` treats UTF-16 code units as characters.
- SignatureService.SignatureLedger.GetItrSignatures: a metadata `signatures` value that is present but not an array is not modelled (it reads as no signatures).
- SignatureService.SignatureLedger.SignItr: a metadata `signatures` value that is present but not an array is not modelled (signing then starts from an empty list).
- SignatureService.SignatureLedger.RevokeSignature: a metadata `signatures` value that is present but not an array is not modelled (revoking then throws on `findIndex`).
- Id generation (`Date.now()`, `Math.random()`) and the current time are parameters.
- Concurrent calls are not modelled: each service call is one atomic step.
