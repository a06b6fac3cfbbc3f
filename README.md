# Dashboard core of the course-load administration front end

This project models the client-side logic of a Next.js administration dashboard for a university's engineering division. The dashboard lists class schedules, student–group attendance relations and study-plan subjects, and uploads the spreadsheets and PDFs that feed them. It also handles sign-in, the stored session, the profile page and password recovery.

The server does all parsing, storage and integrity checking. What runs in the browser, and what is modelled here, is the following:

- **Report tables.** Each of the three views filters, searches and paginates its records. It validates its forms, changes its record list in place, and builds spreadsheet rows.
- **Service clients.** They map database rows and user DTOs, compose error messages, build query strings, and decide from a reply whether a call succeeded.
- **Session pages.** The login, entry, profile and header components read, write and clear the `"userData"` storage entry.
- **Password recovery.** This is a three-step wizard.

## How the system is represented

- **State-holding views and panels** are classes. Each field of a class is a piece of React state. Each handler is a method with a `modifies` clause that states the handler's complete new state:
  - `ScheduleView`, `AttendanceView` and `PlanView`;
  - `AttendanceUploadPanel`;
  - `LoginView`, `HomeView`, `ProfileView` and `RecoverView`.
- **Derived values are pure functions** over the record list. These cover `filtered`, the option lists, `totalPages`, the page slice, the page-button strip and the export rows.
- **Outside I/O becomes parameters.** Every HTTP or database call is a `Result` or `Outcome` parameter of the handler that awaits it. Each view keeps a `calls` log of the requests it sent. "Sends nothing" is stated as "the log is unchanged".
- **Navigation is recorded.** Each navigation is logged as `Push(path)` or `Replace(path)`.
- **Browser storage** is the class `Session.SessionSlot`, holding an `Option<string>`.
- **`JSON.parse` and `JSON.stringify`** are function parameters. `parse` returns `Malformed`, `NotAnObject` or `Object(user)`.
- **Strings** are `seq<char>`.
  - `toLowerCase` and `toUpperCase` fold ASCII letters only.
  - `trim` and `\s` treat these as white space: ASCII space, tab, line feed, carriage return, vertical tab, form feed, no-break space and the byte-order mark.

| file | module | source |
|---|---|---|
| wrappers.dfy | Wrappers | `Option` and `Result` |
| text.dfy | Text | trim, case folding, `includes`, `join`, `String(n)` |
| seqs.dfy | Seqs | filter, map-where, `new Set` de-duplication, sorted distinct option lists |
| pagination.dfy | Pagination | page size, page count, slice, page-button strip, prev/next |
| records.dfy | Records | record types, alerts, spreadsheet cells, navigation |
| table_search.dfy | TableSearch | the `"ALL"` sentinel and the case-insensitive search |
| schedule_report.dfy | ScheduleReport | `ScheduleReportView.tsx` |
| attendance_report.dfy | AttendanceReport | `AttendanceReportView.tsx` |
| upload_panel.dfy | UploadPanel | `AttendanceUploadPanel.tsx` |
| plan_report.dfy | PlanReport | `PlanReportView.tsx` |
| plan_service.dfy | PlanService | `planService.ts` |
| attendance_service.dfy | AttendanceService | `attendanceService.ts` |
| asistencia_service.dfy | AsistenciaService | `asistenciaService.ts` |
| estructura_service.dfy | EstructuraService | `estructuraService.ts` |
| user_service.dfy | UserService | `userService.ts` |
| session.dfy | Session | the stored session, its check, and logout |
| home_page.dfy | HomePage | `app/page.tsx` |
| login_page.dfy | LoginPage | `app/login/page.tsx` |
| profile_page.dfy | ProfilePage | `app/configuracion-perfil/page.tsx` |
| university_header.dfy | UniversityHeader | `UniversityHeaderOnly.tsx` and the profile page's `getInitials` |
| recover_password.dfy | RecoverPassword | `app/recuperar-contrasena/page.tsx` |

## Model

| member | source | states |
|---|---|---|
| Text.Trim | src/components/features/attendance-report/components/AttendanceUploadPanel.tsx:51-53 | `trim()` drops exactly the white space at both ends: the result is an infix that neither starts nor ends with white space, and everything dropped before and after it is white space |
| Text.TrimEmptyIffBlank | src/components/features/attendance-report/components/AttendanceUploadPanel.tsx:115 | `s.trim()` is empty exactly when every character of `s` is white space |
| Text.TrimStartEmptyIffBlank | src/components/shared/UniversityHeaderOnly.tsx:24 | dropping leading white space empties exactly the blank strings |
| Text.LowerCaseFacts | src/components/features/schedule-report/ScheduleReportView.tsx:226-227 | lower-casing gives lower case, is idempotent, and undoes an earlier upper-casing |
| Text.UpperCaseFacts | src/components/shared/UniversityHeaderOnly.tsx:28 | upper-casing gives upper case and is idempotent |
| Text.LowerKeepsContains | src/components/features/schedule-report/ScheduleReportView.tsx:226-227 | an occurrence survives lower-casing of both the text and the query |
| Text.ContainsAfterPrefix | src/components/features/schedule-report/ScheduleReportView.tsx:221-225 | text placed in front never hides an occurrence |
| Text.JoinContainsPart | src/components/features/schedule-report/ScheduleReportView.tsx:221-225 | every joined part occurs in the joined string |
| Text.JoinStartsWithFirst | app/configuracion-perfil/page.tsx:79-84 | a joined string starts with its first part |
| Text.JoinEmpty | src/services/planService.ts:223-234 | with a non-empty separator, a join is empty only for no parts or one empty part |
| Text.NatToStringRoundTrip | src/components/features/schedule-report/ScheduleReportView.tsx:113-124 | reading back the decimal digits of `String(n)` gives `n` |
| Text.IntToStringInjective | src/components/features/schedule-report/ScheduleReportView.tsx:117-121 | different integers render as different strings |
| Text.IntToStringNotBlank | src/components/features/schedule-report/ScheduleReportView.tsx:122 | a rendered number is never blank, so it passes the option filter |
| Seqs.FilterMembership | src/components/features/schedule-report/ScheduleReportView.tsx:220-249 | an element survives `filter` exactly when it was present and satisfies the predicate |
| Seqs.FilterKeepsAll | src/components/features/schedule-report/ScheduleReportView.tsx:220-249 | a predicate every element satisfies keeps the whole list, in order |
| Seqs.FilterAppend | src/components/features/plan-report/PlanReportView.tsx:138-153 | filtering distributes over concatenation |
| Seqs.MapWhere | src/components/features/schedule-report/ScheduleReportView.tsx:346-348 | `map(x => p(x) ? f(x) : x)` keeps the length and changes exactly the matching entries |
| Seqs.MapWhereKeepsOthers | src/components/features/schedule-report/ScheduleReportView.tsx:346-348 | the entries that do not match are kept, in order |
| Seqs.Dedupe | app/configuracion-perfil/page.tsx:81-83 | `[...new Set(s)]` has no duplicates and holds exactly the elements of `s` |
| Seqs.DedupeKeepsHead | app/configuracion-perfil/page.tsx:81-83 | the first element stays first after de-duplication |
| Seqs.DedupeOfDistinct | app/configuracion-perfil/page.tsx:81-83 | a list without duplicates is left unchanged |
| Seqs.DedupeIdempotent | app/configuracion-perfil/page.tsx:81-83 | de-duplicating twice equals de-duplicating once |
| Seqs.StrLessTotal | src/components/features/schedule-report/ScheduleReportView.tsx:79-85 | the default string order of `sort()` is total |
| Seqs.StrLessTransitive | src/components/features/schedule-report/ScheduleReportView.tsx:79-85 | the default string order is transitive |
| Seqs.SortedDistinct | src/components/features/schedule-report/ScheduleReportView.tsx:79-85 | `Array.from(new Set(xs)).sort()` is strictly sorted and holds exactly the elements of `xs` |
| Seqs.OptionListSpec | src/components/features/schedule-report/ScheduleReportView.tsx:77-127 | an option list is strictly sorted and holds exactly the non-blank values of its column |
| Pagination.TotalPages | src/components/features/schedule-report/ScheduleReportView.tsx:251-252 | exactly one page when there are no rows; otherwise the fewest pages of 15 rows that hold every row |
| Pagination.PageItems | src/components/features/schedule-report/ScheduleReportView.tsx:253-255 | a page holds at most 15 rows, taken from the filtered list at the page's offset and in order; it is full before the last page, non-empty on the last, and empty past it |
| Pagination.FirstPagesArePrefix | src/components/features/schedule-report/ScheduleReportView.tsx:253-255 | pages 1 to k together are the first k·15 rows |
| Pagination.PagesCoverAll | src/components/features/schedule-report/ScheduleReportView.tsx:251-255 | reading every page in order gives every row exactly once |
| Pagination.PageStrip | src/components/features/schedule-report/ScheduleReportView.tsx:759-769 | the strip has `min(5, totalPages)` consecutive buttons within `[1, totalPages]`, centred on the current page in the middle range |
| Pagination.StripContainsCurrent | src/components/features/schedule-report/ScheduleReportView.tsx:759-769 | a current page within range always has its own button |
| Pagination.ShortcutIffLastHidden | src/components/features/schedule-report/ScheduleReportView.tsx:785-797 | the "… last" shortcut is shown exactly when the last page has no numbered button |
| Pagination.PrevPage | src/components/features/schedule-report/ScheduleReportView.tsx:750-752 | `‹` goes back one page and never below 1 |
| Pagination.NextPage | src/components/features/schedule-report/ScheduleReportView.tsx:800-804 | `›` goes forward one page and never past the last |
| TableSearch.EmptyQueryMatches | src/components/features/schedule-report/ScheduleReportView.tsx:226-227 | the empty search matches every record |
| TableSearch.QueryCaseInsensitive | src/components/features/schedule-report/ScheduleReportView.tsx:226-227 | the letter case of the query never changes the result |
| ScheduleReport.FilterRecordsSpec | src/components/features/schedule-report/ScheduleReportView.tsx:220-249 | `FilterRecords` lists a record exactly when it is loaded, its `SearchText` (the eight searched fields joined by spaces) contains the search ignoring case, and it passes each of the four filters; the employee number is compared as text, with a missing one as `""` |
| ScheduleReport.UnfilteredShowsAll | src/components/features/schedule-report/ScheduleReportView.tsx:220-249 | with no search and every filter at `"ALL"`, the whole list is shown in order |
| ScheduleReport.OptionsSpec | src/components/features/schedule-report/ScheduleReportView.tsx:77-127 | each option list is sorted, duplicate-free, and offers exactly the non-blank values of its column |
| ScheduleReport.EmployeeOptionsComeFromNumbers | src/components/features/schedule-report/ScheduleReportView.tsx:113-124 | every employee option is the rendering of an actual employee number; a missing number never becomes an option |
| ScheduleReport.OptionSelectsSomething | src/components/features/schedule-report/ScheduleReportView.tsx:77-127 | choosing any offered option, with the other filters open, lists at least one record |
| ScheduleReport.ReplaceById | src/components/features/schedule-report/ScheduleReportView.tsx:346-348 | the edit keeps the length, puts the returned record at every position with the edited id, and leaves every other position unchanged |
| ScheduleReport.ReplaceByIdKeepsOthers | src/components/features/schedule-report/ScheduleReportView.tsx:346-348 | the records with other ids are kept, in order |
| ScheduleReport.ExportRow | src/components/features/schedule-report/ScheduleReportView.tsx:452-466 | thirteen cells in header order, each holding its record field: the four texts, then employee number, three name parts, weekday, start, end, room and capacity; a missing value is `""` and a present number stays a number |
| ScheduleReport.ExportRows | src/components/features/schedule-report/ScheduleReportView.tsx:452-466 | one row per listed record, in the listed order |
| ScheduleReport.UploadErrorMessage | src/components/features/schedule-report/ScheduleReportView.tsx:206-209 | the upload error text is the fixed sentence followed by `": "` and the thrown message when one exists, and the sentence with a full stop otherwise |
| ScheduleReport.UploadErrorMessageInjective | src/components/features/schedule-report/ScheduleReportView.tsx:206-209 | different thrown messages give different alerts |
| ScheduleReport.ScheduleView.constructor | src/components/features/schedule-report/ScheduleReportView.tsx:49-74 | the view starts empty, on page 1, with every filter at `"ALL"`, no processing summary and no upload history |
| ScheduleReport.ScheduleView.Load | src/components/features/schedule-report/ScheduleReportView.tsx:141-151 | a successful first load replaces the list and returns to page 1; a failure changes nothing |
| ScheduleReport.ScheduleView.SetSearch | src/components/features/schedule-report/ScheduleReportView.tsx:564-567 | typing a search returns to page 1 and changes nothing else |
| ScheduleReport.ScheduleView.SetFilter | src/components/features/schedule-report/ScheduleReportView.tsx:576-630 | changing any column filter returns to page 1 and changes nothing else |
| ScheduleReport.ScheduleView.GoToPage | src/components/features/schedule-report/ScheduleReportView.tsx:743-794 | a numbered or first-page button goes to that page |
| ScheduleReport.ScheduleView.Prev | src/components/features/schedule-report/ScheduleReportView.tsx:750-752 | the page becomes `PrevPage` of the old page |
| ScheduleReport.ScheduleView.Next | src/components/features/schedule-report/ScheduleReportView.tsx:800-804 | the page becomes `NextPage` of the old page |
| ScheduleReport.ScheduleView.Last | src/components/features/schedule-report/ScheduleReportView.tsx:811-812 | the page becomes the last page |
| ScheduleReport.ScheduleView.EditClick | src/components/features/schedule-report/ScheduleReportView.tsx:258-277 | the dialog opens on the record with `FormOf` its fields in the form |
| ScheduleReport.ScheduleView.CreateClick | src/components/features/schedule-report/ScheduleReportView.tsx:279-298 | the dialog opens for a new record with every field absent |
| ScheduleReport.ScheduleView.SetEditForm | src/components/features/schedule-report/ScheduleReportView.tsx:307-315 | field edits replace the form |
| ScheduleReport.ScheduleView.CloseEditModal | src/components/features/schedule-report/ScheduleReportView.tsx:300-305 | the dialog closes and the form is cleared |
| ScheduleReport.ScheduleView.SaveEdit | src/components/features/schedule-report/ScheduleReportView.tsx:317-402 | an incomplete form is refused with an alert and no request. An edit replaces by id. A creation prepends the returned record, or reloads when none is returned, and goes to page 1. A failure keeps the dialog open |
| ScheduleReport.ScheduleView.DeleteClick | src/components/features/schedule-report/ScheduleReportView.tsx:404-407 | the confirmation opens on the record |
| ScheduleReport.ScheduleView.ConfirmDelete | src/components/features/schedule-report/ScheduleReportView.tsx:409-436 | the record is deleted on the server, then the list is reloaded; the page is kept and the dialog always closes |
| ScheduleReport.ScheduleView.Export | src/components/features/schedule-report/ScheduleReportView.tsx:442-466 | an empty listing is refused with an alert; otherwise one row per listed record |
| ScheduleReport.ScheduleView.ShowTable | src/components/features/schedule-report/ScheduleReportView.tsx:439 | switches to the table |
| ScheduleReport.ScheduleView.ShowUpload | src/components/features/schedule-report/ScheduleReportView.tsx:152-169 | switches to the upload view; when it was not already showing, fetches the upload history once and keeps it on success, keeping the old history when the fetch fails |
| ScheduleReport.ScheduleView.Upload | src/components/features/schedule-report/ScheduleReportView.tsx:171-216 | with no file at all, an alert and no request. Otherwise upload, process and reload in order, stopping at the first failure and showing its message. A successful processing keeps its summary, even when the reload then fails; full success shows the table. The history is unchanged |
| AttendanceReport.FilterRecordsSpec | src/components/features/attendance-report/AttendanceReportView.tsx:128-144 | `FilterRecords` lists a relation exactly when it is loaded, its `SearchText` contains the search ignoring case, and it passes each of the three filters |
| AttendanceReport.SearchFindsMatricula | src/components/features/attendance-report/AttendanceReportView.tsx:128-135 | searching for a student's enrolment number finds that relation |
| AttendanceReport.OptionsSpec | src/components/features/attendance-report/AttendanceReportView.tsx:57-90 | each option list is sorted, duplicate-free, and offers exactly the non-blank values of its column |
| AttendanceReport.RemoveByKey | src/components/features/attendance-report/AttendanceReportView.tsx:305-318 | deleting never lengthens the list |
| AttendanceReport.RemoveByKeySpec | src/components/features/attendance-report/AttendanceReportView.tsx:305-318 | exactly the relations sharing the target's period, subject, group and enrolment number are removed; without such a relation, nothing changes |
| AttendanceReport.RemoveByKeyIdempotent | src/components/features/attendance-report/AttendanceReportView.tsx:305-318 | deleting twice equals deleting once |
| AttendanceReport.Merge | src/components/features/attendance-report/AttendanceReportView.tsx:387-390 | `{ ...r, ...editForm }`: each of the eight form fields, when present, overrides the record's, and is kept from the record when absent; the six fields outside the form are kept |
| AttendanceReport.MergeLaws | src/components/features/attendance-report/AttendanceReportView.tsx:387-390 | merging a record's own form or an empty form changes nothing; merging twice equals merging once |
| AttendanceReport.LocalEdit | src/components/features/attendance-report/AttendanceReportView.tsx:377-392 | the length is kept; every relation with the edited key gets the form merged in, and the rest are unchanged |
| AttendanceReport.LocalEditKeepsOthers | src/components/features/attendance-report/AttendanceReportView.tsx:377-392 | with the key fields unchanged, every other relation keeps its place |
| AttendanceReport.ExportRow | src/components/features/attendance-report/AttendanceReportView.tsx:164-176 | eleven text cells in header order, each holding its record field; a missing maternal surname or file name is `""` |
| AttendanceReport.ExportRows | src/components/features/attendance-report/AttendanceReportView.tsx:164-176 | one row per listed relation, in order |
| AttendanceReport.Sent | src/components/features/attendance-report/AttendanceReportView.tsx:216-242 | an upload sends the file, then processing only if it was stored, then a reload only if processing succeeded |
| AttendanceReport.AttendanceView.constructor | src/components/features/attendance-report/AttendanceReportView.tsx:36-106 | the view starts empty, on page 1, with every filter at `"ALL"` |
| AttendanceReport.AttendanceView.Reload | src/components/features/attendance-report/AttendanceReportView.tsx:112-126 | success replaces the list and returns to page 1; failure keeps the list and shows the load error; loading ends |
| AttendanceReport.AttendanceView.SetSearch | src/components/features/attendance-report/AttendanceReportView.tsx:494-497 | typing a search returns to page 1 |
| AttendanceReport.AttendanceView.SetFilter | src/components/features/attendance-report/AttendanceReportView.tsx:505-543 | changing any filter returns to page 1 |
| AttendanceReport.AttendanceView.GoToPage | src/components/features/attendance-report/AttendanceReportView.tsx:631-680 | a numbered or first-page button goes to that page |
| AttendanceReport.AttendanceView.Prev | src/components/features/attendance-report/AttendanceReportView.tsx:639 | the page becomes `PrevPage` of the old page |
| AttendanceReport.AttendanceView.Next | src/components/features/attendance-report/AttendanceReportView.tsx:689 | the page becomes `NextPage` of the old page |
| AttendanceReport.AttendanceView.Last | src/components/features/attendance-report/AttendanceReportView.tsx:697 | the page becomes the last page |
| AttendanceReport.AttendanceView.SetFile | src/components/features/attendance-report/AttendanceReportView.tsx:765 | the panel's staged file becomes the view's |
| AttendanceReport.AttendanceView.Export | src/components/features/attendance-report/AttendanceReportView.tsx:154-186 | an empty listing is refused with an alert; otherwise one row per listed relation |
| AttendanceReport.AttendanceView.Upload | src/components/features/attendance-report/AttendanceReportView.tsx:190-264 | no file is refused first, a blank period label second, each with its alert, no request, and the list, search, page, summary, view and loading flags unchanged. Otherwise the trimmed label is sent; a failed upload or processing keeps the list, search, page and view and shows the upload error; success stores the summary, reloads, shows the table and the success alert, and a detected period becomes the search on page 1 |
| AttendanceReport.AttendanceView.Ingest | src/components/features/attendance-report/AttendanceReportView.tsx:216-263 | a failed upload or processing keeps the list and shows the upload error. Success stores the summary, reloads, shows the table, and sets the search to a detected period on page 1 |
| AttendanceReport.AttendanceView.Process | src/components/features/attendance-report/AttendanceReportView.tsx:226-263 | processing, then the reload, with the same outcomes as `Ingest` |
| AttendanceReport.AttendanceView.EditClick | src/components/features/attendance-report/AttendanceReportView.tsx:267-282 | the dialog opens on the relation with `FormOf` its eight editable fields |
| AttendanceReport.AttendanceView.CreateClick | src/components/features/attendance-report/AttendanceReportView.tsx:284-298 | the creation dialog opens with the five asked fields empty |
| AttendanceReport.AttendanceView.SetEditForm | src/components/features/attendance-report/AttendanceReportView.tsx:341-349 | field edits replace the form |
| AttendanceReport.AttendanceView.CloseEditModal | src/components/features/attendance-report/AttendanceReportView.tsx:332-339 | the dialog closes, the form and the error are cleared |
| AttendanceReport.AttendanceView.DeleteClick | src/components/features/attendance-report/AttendanceReportView.tsx:300-303 | the confirmation opens on the relation |
| AttendanceReport.AttendanceView.ConfirmDelete | src/components/features/attendance-report/AttendanceReportView.tsx:305-323 | the list loses exactly the relations with the target's key; no request is sent |
| AttendanceReport.AttendanceView.SaveEdit | src/components/features/attendance-report/AttendanceReportView.tsx:351-432 | an edit is merged locally with no request and no check. A creation missing period, subject, group or enrolment number is refused with no request. A created batch is put first, in returned order, on page 1. The loading and processing flags never change |
| UploadPanel.AttendanceUploadPanel.constructor | src/components/features/attendance-report/components/AttendanceUploadPanel.tsx:15-17 | no file, no highlight, empty label |
| UploadPanel.AttendanceUploadPanel.FileChange | src/components/features/attendance-report/components/AttendanceUploadPanel.tsx:19-23 | the first chosen file, or none, is staged here and in the parent |
| UploadPanel.AttendanceUploadPanel.DragOver | src/components/features/attendance-report/components/AttendanceUploadPanel.tsx:25-29 | the highlight turns on |
| UploadPanel.AttendanceUploadPanel.DragLeave | src/components/features/attendance-report/components/AttendanceUploadPanel.tsx:31-35 | the highlight turns off |
| UploadPanel.AttendanceUploadPanel.Drop | src/components/features/attendance-report/components/AttendanceUploadPanel.tsx:37-47 | the highlight turns off; only a dropped file replaces the staged one, in the parent too |
| UploadPanel.AttendanceUploadPanel.SetPeriodoEtiqueta | src/components/features/attendance-report/components/AttendanceUploadPanel.tsx:17 | typing sets the label |
| UploadPanel.AttendanceUploadPanel.ClickUpload | src/components/features/attendance-report/components/AttendanceUploadPanel.tsx:49-53 | a disabled button sends nothing; an enabled one sends the trimmed label, which is never blank |
| UploadPanel.EnabledSubmitPassesGuards | src/components/features/attendance-report/components/AttendanceUploadPanel.tsx:115 | an enabled submit always passes both upload guards of the attendance view |
| PlanReport.FilterRecordsSpec | src/components/features/plan-report/PlanReportView.tsx:138-153 | `FilterRecords` lists a subject exactly when its `SearchText` (code, name, plan and version) contains the search ignoring case, its plan passes the plan filter, and its upper-cased type passes the type filter |
| PlanReport.TipoFilterIgnoresCase | src/components/features/plan-report/PlanReportView.tsx:148-149 | the letter case of a stored type never matters to the filter |
| PlanReport.SearchFindsCodigo | src/components/features/plan-report/PlanReportView.tsx:140-145 | searching for a subject's code finds it |
| PlanReport.EstadoPill | src/components/features/plan-report/PlanReportView.tsx:166-177 | COMPLETADO or OK is emerald, PENDIENTE yellow, ERROR or RECHAZADO red, in both directions |
| PlanReport.EstadoPillGrayOtherwise | src/components/features/plan-report/PlanReportView.tsx:176 | every other state is gray |
| PlanReport.CreateForm | src/components/features/plan-report/PlanReportView.tsx:280-291 | empty code and name, no credits, type OBLIGATORIA, the first catalogue plan or 0; such a form cannot be saved yet |
| PlanReport.SaveCompleteSpec | src/components/features/plan-report/PlanReportView.tsx:343-355 | the save guard `SaveComplete` holds exactly when the trimmed code and trimmed name are non-empty and a plan is chosen |
| PlanReport.ReplaceById | src/components/features/plan-report/PlanReportView.tsx:360-362 | corrected edit: the length is kept, and exactly the subjects with the saved record's id are replaced |
| PlanReport.ReplaceByIdKeepsOthers | src/components/features/plan-report/PlanReportView.tsx:360-362 | the subjects with other ids keep their places |
| PlanReport.RemoveById | src/components/features/plan-report/PlanReportView.tsx:303 | deleting never lengthens the list |
| PlanReport.RemoveByIdSpec | src/components/features/plan-report/PlanReportView.tsx:303 | no subject with the id remains, every other is kept, and deleting again changes nothing |
| PlanReport.ApplyUpdateAsWritten | src/components/features/plan-report/PlanReportView.tsx:358-362 | as written, the edit fails exactly when the service result is missing and the list is not empty |
| PlanReport.UpdateAsWrittenFails | src/components/features/plan-report/PlanReportView.tsx:358-362 | as written, editing a non-empty table fails |
| PlanReport.PrependAsWritten | src/components/features/plan-report/PlanReportView.tsx:364-366 | as written, the service result becomes the first entry of the list |
| PlanReport.FilterAsWritten | src/components/features/plan-report/PlanReportView.tsx:138-153 | filtering fails exactly when the list holds a missing entry |
| PlanReport.CreateAsWrittenBreaksTable | src/components/features/plan-report/PlanReportView.tsx:364-366 | as written, after any creation the table can no longer be filtered |
| PlanReport.PrependCreated | src/components/features/plan-report/PlanReportView.tsx:364-366 | corrected create: the saved record comes first, followed by every loaded subject in order |
| PlanReport.FilterAsWrittenAgrees | src/components/features/plan-report/PlanReportView.tsx:138-153 | on a list of real records, the as-written filter equals the modelled filter |
| PlanReport.ExportRow | src/components/features/plan-report/PlanReportView.tsx:201-209 | seven cells in header order, each holding its field (code, name, credits as a number, type, plan, version, plan credits); a plan without a credit total exports `""` |
| PlanReport.ExportRows | src/components/features/plan-report/PlanReportView.tsx:201-209 | one row per listed subject, in order |
| PlanReport.PlanView.constructor | src/components/features/plan-report/PlanReportView.tsx:47-85 | the view starts empty on page 1, with every plan and type allowed |
| PlanReport.PlanView.LoadData | src/components/features/plan-report/PlanReportView.tsx:89-111 | both lists load together. Either failing keeps both lists and shows the error. A loaded catalogue gives an unset form plan the first plan |
| PlanReport.PlanView.ShowUpload | src/components/features/plan-report/PlanReportView.tsx:118-134 | entering the upload view fetches the history once; a failure keeps the old history |
| PlanReport.PlanView.ShowTable | src/components/features/plan-report/PlanReportView.tsx:188 | switches to the table |
| PlanReport.PlanView.SetSearch | src/components/features/plan-report/PlanReportView.tsx:447-450 | typing a search returns to page 1 |
| PlanReport.PlanView.SetPlanFilter | src/components/features/plan-report/PlanReportView.tsx:460-465 | choosing a plan returns to page 1 |
| PlanReport.PlanView.SetTipoFilter | src/components/features/plan-report/PlanReportView.tsx:479-482 | choosing a type returns to page 1 |
| PlanReport.PlanView.First | src/components/features/plan-report/PlanReportView.tsx:753 | goes to page 1 |
| PlanReport.PlanView.Prev | src/components/features/plan-report/PlanReportView.tsx:761 | the page becomes `PrevPage` of the old page |
| PlanReport.PlanView.Next | src/components/features/plan-report/PlanReportView.tsx:773-775 | the page becomes `NextPage` of the old page |
| PlanReport.PlanView.Last | src/components/features/plan-report/PlanReportView.tsx:783 | goes to the last page |
| PlanReport.PlanView.Export | src/components/features/plan-report/PlanReportView.tsx:191-218 | an empty listing is refused with an alert; otherwise one row per listed subject |
| PlanReport.PlanView.SetUploadFile | src/components/features/plan-report/PlanReportView.tsx:66 | stages the PDF |
| PlanReport.PlanView.UploadPlan | src/components/features/plan-report/PlanReportView.tsx:222-263 | without a PDF, an alert, no request, and nothing else changed. Otherwise one upload with force off, debug on and OCR off; a failure shows the upload error and keeps the lists, form and view; success records the reply, reloads both lists as `LoadData` does (giving an unset form plan the first catalogue plan), and shows the table |
| PlanReport.PlanView.OpenEdit | src/components/features/plan-report/PlanReportView.tsx:267-278 | the dialog opens on the subject with `FormOf` its fields |
| PlanReport.PlanView.OpenCreate | src/components/features/plan-report/PlanReportView.tsx:280-291 | the dialog opens with `CreateForm` of the current catalogue |
| PlanReport.PlanView.SetEditForm | src/components/features/plan-report/PlanReportView.tsx:332-340 | field edits replace the form |
| PlanReport.PlanView.CloseEditModal | src/components/features/plan-report/PlanReportView.tsx:326-330 | the dialog closes; what was typed stays in the form |
| PlanReport.PlanView.DeleteClick | src/components/features/plan-report/PlanReportView.tsx:293-296 | the confirmation opens on the subject |
| PlanReport.PlanView.ConfirmDelete | src/components/features/plan-report/PlanReportView.tsx:298-322 | only a confirmed server delete removes the subject; a failure keeps the list; the dialog always closes |
| PlanReport.PlanView.SaveEdit | src/components/features/plan-report/PlanReportView.tsx:342-390 | an incomplete form is refused with no request. An edit replaces by the saved record's id. A creation puts the saved record first on page 1. A failure keeps the dialog open |
| PlanService.ExtractErrorMessage | src/services/planService.ts:15-26 | a string error gives its lower-cased text, an object with a string message gives that message lower-cased, anything else gives `""` |
| PlanService.MapRow | src/services/planService.ts:45-58 | the renaming loses nothing except the difference between a null type and `"OBLIGATORIA"` |
| PlanService.MapRowInverse | src/services/planService.ts:45-58 | every record maps back to itself through its row |
| PlanService.MessageOr | src/services/planService.ts:251-254 | the database message when truthy, else the fallback |
| PlanService.GetPlanMaterias | src/services/planService.ts:121-147 | a database error is passed on; no data is an empty list; otherwise each row mapped by `MapRow`, in order, so a null type becomes `"OBLIGATORIA"` and every other field is kept |
| PlanService.CatalogLabel | src/services/planService.ts:113-116 | the label is the name, `" (v"`, the version and `")"` |
| PlanService.CatalogLabelInjective | src/services/planService.ts:113-116 | two versions of one plan never share a label |
| PlanService.GetPlanesCatalog | src/services/planService.ts:100-117 | one option per plan, in catalogue order, with its id and label |
| PlanService.MapFormToPayload | src/services/planService.ts:159-167 | the payload renames the form's fields and keeps every value |
| PlanService.MapFormToPayloadInjective | src/services/planService.ts:159-167 | different forms give different payloads |
| PlanService.UploadParams | src/services/planService.ts:321-326 | one parameter per set flag, each flag present exactly when set, in strictly increasing order force, debug, ocr |
| PlanService.UploadQuery | src/services/planService.ts:321-328 | no `?` when no flag is set; otherwise `?` and the parameters joined by `&`; `UploadUrl` appends this query to the upload path |
| PlanService.UploadQueryHasFlags | src/services/planService.ts:321-328 | every set flag appears in the query |
| PlanService.UploadPlanPdf | src/services/planService.ts:314-344 | only the HTTP status decides. The error names the status, then the body or the status text |
| PlanService.UpdateErrorParts | src/services/planService.ts:223-232 | the truthy parts of the error, the message first |
| PlanService.UpdateErrorMessage | src/services/planService.ts:223-234 | never empty; the parts joined by `" \| "`, or the fallback when there are none |
| PlanService.UpdateErrorMessageKeepsParts | src/services/planService.ts:223-234 | every truthy part, including the labelled code, appears in the message, and the message starts with the database message |
| PlanService.UpdatePlanMateria | src/services/planService.ts:209-239 | succeeds exactly without a database error; otherwise fails with the composed message |
| PlanService.DeleteRowMessage | src/services/planService.ts:260-271 | the specific message exactly when the lower-cased database message contains `violates foreign key constraint`; the generic message otherwise |
| PlanService.ForeignKeyViolationRecognised | src/services/planService.ts:262-267 | a message that mentions a foreign-key violation gets the specific message |
| PlanService.ForeignKeyViolationCaseInsensitive | src/services/planService.ts:262-267 | an upper-case report is recognised too |
| PlanService.DeletePlanMateria | src/services/planService.ts:242-272 | the plan links are deleted first, and the row only if that worked; each failure has its own message |
| PlanService.CreatePlanMateria | src/services/planService.ts:170-206 | insert, read back the id, then link to the form's plan, stopping at the first failure with its message |
| PlanService.GetPlanHistorial | src/services/planService.ts:74-91 | a failed status is an error; a reply without items is an empty history (`HistorialUrl` asks for the default limit of 50) |
| AttendanceService.ResumenUrl | src/services/attendanceService.ts:41-47 | the query carries `?periodo=` exactly when a non-empty period is given |
| AttendanceService.RowMappingBijective | src/services/attendanceService.ts:70-85 | `RowToRecord` copies all fourteen fields and `RecordToRow` undoes it: rows and records correspond one to one |
| AttendanceService.RowsToRecords | src/services/attendanceService.ts:70-85 | one record per row, in order |
| AttendanceService.GetAttendanceResumen | src/services/attendanceService.ts:38-86 | a failed status is an error; a reply without `ok` or rows is an empty list; otherwise the mapped rows |
| AttendanceService.CreateAttendance | src/services/attendanceService.ts:94-111 | a failure carries the response text or the fallback; one object becomes a one-element list |
| AttendanceService.CreatedRecordsKept | src/services/attendanceService.ts:108-110 | every returned relation reaches the caller, whichever shape the reply had |
| AttendanceService.ProcesarAttendance | src/services/attendanceService.ts:144-175 | succeeds exactly on an OK status with `ok`, returning the summary as sent |
| AttendanceService.MissingSummaryAccepted | src/services/attendanceService.ts:162-174 | unlike the list-processing client, an `ok` reply without a summary is accepted |
| AsistenciaService.AcceptUpload | src/services/asistenciaService.ts:42-52 | succeeds exactly on an OK status with `ok` and a non-zero file id, which is returned; otherwise the server's error or the fallback |
| AsistenciaService.UploadAsistencia | src/services/asistenciaService.ts:33-53 | the list upload accepts exactly an OK status with `ok` and a non-zero file id; a failed status and a rejected reply each have their own message |
| AttendanceService.UploadAttendance | src/services/attendanceService.ts:118-142 | the second upload client accepts and rejects exactly as the list upload and returns the same id; only its failed-status message differs |
| AsistenciaService.ProcessBody | src/services/asistenciaService.ts:63-69 | the body holds the period label exactly when it is not empty |
| AsistenciaService.ProcesarAsistencia | src/services/asistenciaService.ts:63-92 | succeeds exactly on an OK status with `ok` and a summary, which is returned unchanged |
| EstructuraService.UploadEstructura | src/services/estructuraService.ts:30-49 | succeeds exactly on a 2xx status with `ok` and a truthy file id; otherwise the server's error or a message naming the status |
| EstructuraService.ProcesarEstructura | src/services/estructuraService.ts:56-77 | succeeds exactly on a 2xx status with `ok` and a summary, which is returned unchanged |
| EstructuraService.UnparseableBodyFails | src/services/estructuraService.ts:39 | a body that is not JSON always fails, with the status message |
| EstructuraService.StatusMessageNamesStatus | src/services/estructuraService.ts:42-45 | different statuses give different messages |
| UserService.MapDtoToUser | src/services/userService.ts:34-47 | a null role becomes 0 and `""`, and there is never an image. The DTO is recovered exactly when it did not already use 0 or `""` |
| UserService.MapDtoToUserInverse | src/services/userService.ts:34-47 | a user without an image maps back to itself |
| UserService.GetUsersWithRoles | src/services/userService.ts:52-59 | a failed status throws the fixed message; otherwise every DTO is mapped, in order |
| UserService.GetRoles | src/services/userService.ts:61-68 | a failed status throws the fixed message; otherwise the roles as sent |
| UserService.UserPath | src/services/userService.ts:84-86 | an account's path is the collection path, a slash and the id |
| UserService.UserPathInjective | src/services/userService.ts:84-86 | different ids address different accounts |
| UserService.UpdateUserRole | src/services/userService.ts:70-82 | succeeds exactly on an OK status; the request goes to `UpdateUserRolePath`, the account's path followed by `/role` |
| UserService.DeleteUser | src/services/userService.ts:84-91 | succeeds exactly on an OK status |
| UserService.CreateProfesor | src/services/userService.ts:103-118 | a failed status throws the fixed message; otherwise the mapped account |
| UserService.UpdateProfesorRequest | src/services/userService.ts:132-138 | the professor id goes into the path, and the body keeps every other field |
| UserService.UpdateProfesorRequestInjective | src/services/userService.ts:132-138 | the request determines the input |
| UserService.UpdateProfesor | src/services/userService.ts:129-146 | a failed status throws the fixed message; otherwise the mapped account |
| Session.SessionSlot.constructor | app/page.tsx:22-24 | the slot holds what storage holds |
| Session.SessionSlot.SetItem | app/login/page.tsx:65-67 | writing stores the text |
| Session.SessionSlot.RemoveItem | app/page.tsx:34 | removing empties the slot |
| Session.Check | app/page.tsx:19-46 | an empty slot is no session. Text that does not parse, is not an object, or has no email is invalid. Anything else is the user, with an email |
| Session.Logout | src/components/shared/NavigationTabs.tsx:48-55 | the session is cleared, then the browser goes to the login page |
| HomePage.HomeView.constructor | app/page.tsx:17 | the page starts checking |
| HomePage.HomeView.CheckSession | app/page.tsx:19-46 | no session: go to login, storage untouched. An invalid one: remove it, then go to login. A valid one: stay, storage untouched. The check always ends |
| LoginPage.StoredText | app/login/page.tsx:62-67 | the stored text is the serialised user, or `"undefined"` without one |
| LoginPage.LoginView.constructor | app/login/page.tsx:27-31 | empty fields, not loading, no error |
| LoginPage.LoginView.SetEmail | app/login/page.tsx:27 | typing sets the email |
| LoginPage.LoginView.SetPassword | app/login/page.tsx:28 | typing sets the password |
| LoginPage.LoginView.HandleSubmit | app/login/page.tsx:33-77 | a missing field sets an error with no request and no write. A refusal shows the server's error or the fallback, storage untouched. Success writes the user, then goes home. Loading ends false |
| LoginPage.LoginView.GoToRecover | app/login/page.tsx:79-81 | the link goes to the recovery page |
| LoginPage.LoginSessionAccepted | app/login/page.tsx:62-70 | a user with an email, once written by a successful login, is what the entry and profile checks accept |
| LoginPage.MissingUserRejected | app/login/page.tsx:62-67 | a success reply without a user leaves a session the next check rejects |
| UniversityHeader.TakeWord | src/components/shared/UniversityHeaderOnly.tsx:25 | the longest prefix without white space, non-empty when the text starts with a non-space |
| UniversityHeader.Words | src/components/shared/UniversityHeaderOnly.tsx:25 | `trim().split(/\s+/)`: non-empty words without white space, none exactly for a blank text, the first starting at the first kept character |
| UniversityHeader.UsableNameIsTrimTest | src/components/shared/UniversityHeaderOnly.tsx:24 | the name test is `nombre && nombre.trim().length > 0` |
| UniversityHeader.Initials | src/components/shared/UniversityHeaderOnly.tsx:23-32 | one or two upper-case letters. With a usable name, `NameInitials` gives the first letters of its first two words, two exactly when it has two words. Else the first letter of the email. Else `"US"` |
| UniversityHeader.HeaderInitials | src/components/shared/UniversityHeaderOnly.tsx:37-50 | no stored text, or text that is not an object, gives `"US"`; otherwise the initials of the stored name and email |
| UniversityHeader.SignedInInitials | src/components/shared/UniversityHeaderOnly.tsx:37-50 | for an accepted session, the header shows the user's own initials, from the email when the name is unusable |
| ProfilePage.PrimaryRole | app/configuracion-perfil/page.tsx:76-77 | the first application role, else the first role, else `"Administrador"` |
| ProfilePage.AllRolesNamesEveryRole | app/configuracion-perfil/page.tsx:79-84 | every role of either list (`RoleList`, application roles first) appears in the roles line `AllRoles` |
| ProfilePage.AllRolesStartsWithPrimary | app/configuracion-perfil/page.tsx:76-84 | the roles line `AllRoles` starts with the primary role, and equals `"Administrador"` when there are no roles |
| ProfilePage.ProfileView.constructor | app/configuracion-perfil/page.tsx:34-35 | no user, loading |
| ProfilePage.ProfileView.CheckSession | app/configuracion-perfil/page.tsx:37-63 | no session: go to login. An invalid one: remove it, then go to login. A valid one: it becomes the page's user. Loading always ends |
| RecoverPassword.Rank | app/recuperar-contrasena/page.tsx:8 | the order request, reset, success |
| RecoverPassword.ResetFormError | app/recuperar-contrasena/page.tsx:65-73 | a missing field is reported before a short password; the form passes exactly with all fields and at least six characters |
| RecoverPassword.RecoverView.constructor | app/recuperar-contrasena/page.tsx:13-21 | the wizard starts at the request step with empty fields |
| RecoverPassword.RecoverView.SetEmail | app/recuperar-contrasena/page.tsx:15 | typing sets the email |
| RecoverPassword.RecoverView.SetCodigo | app/recuperar-contrasena/page.tsx:16 | typing sets the code |
| RecoverPassword.RecoverView.SetNewPassword | app/recuperar-contrasena/page.tsx:17 | typing sets the new password |
| RecoverPassword.RecoverView.RequestCode | app/recuperar-contrasena/page.tsx:23-58 | an empty email is refused with no request and the step kept. A failure shows the server's error or the fallback. Success shows the server's message or the fallback and moves to reset. The step never goes back |
| RecoverPassword.RecoverView.ResetPasswordSubmit | app/recuperar-contrasena/page.tsx:60-97 | the form checks refuse with no request. A failure keeps the step. Success shows the message or the fallback and moves to success. The step never goes back |
| RecoverPassword.RecoverView.GoToLogin | app/recuperar-contrasena/page.tsx:99-101 | cancel and finish go to the login page |

## Left out

- HTTP and database calls are not modelled as I/O. Each one is a parameter carrying the decoded reply or the thrown message. Timing, retries and the URL base from the environment are not represented.
- Async interleaving is not modelled. Each handler runs atomically. This covers the parallel catalogue and subject loads, responses arriving after navigation, and state read through a stale closure.
- Spreadsheet writing and the date-stamped file name are left out, because they use an external library and the clock. Only the empty-list guard and the row mapping are modelled.
- The short date formatter of the schedule and plan views is left out: it depends on `Date` parsing and the local time zone. So is the date shown in the plan and schedule upload histories: the model keeps each history entry's date as received.
- Letter case is folded for ASCII letters only. White space is the ASCII set plus the no-break space and the byte-order mark. Unicode case mapping and the other Unicode spaces of `\s` are not modelled.
- `JSON.parse` and `JSON.stringify` are function parameters. The gap between a missing field and a `null` field is collapsed into `None`, except for the attendance form's maternal surname.
- Rendering, styling, icons and modal markup are left out. Router navigation is a recorded target.
- The server-side branch (`typeof window === "undefined"`) of the session readers is left out. The model always runs in the browser.
- Console logging is left out.
- URL encoding of the attendance period is a function parameter.
- The schedule services behind `getHorarios`, `uploadHorarios`, `procesarHorarios` and `getHorariosHistorial` are not part of this model. Only the outcomes the view receives from them are. The processing summary keeps just the two counters the view displays, `gruposUpsert` and `horariosUpsert`.
- UserTable and PlanTable are presentational and not modelled. The type declaration files only give the datatypes their shape.
- UniversityHeader.Initials: non-ASCII letters are not upper-cased. Neither are characters whose upper case is longer than one letter, such as `ß`.
- AttendanceReport.AttendanceView.Upload: an upload label the panel leaves undefined is modelled as the empty string, which the blank-label guard then refuses.
- RecoverPassword.ResetFormError: the password length counts characters, where JavaScript counts UTF-16 code units. The two differ only for characters outside the Basic Multilingual Plane.

## Findings

| source | as written | input that shows it | evidently intended | confidence | as-written member | corrected member |
|---|---|---|---|---|---|---|
| src/components/features/plan-report/PlanReportView.tsx:358-362 | the edit branch reads `updated.id` from the awaited result of `updatePlanMateria`, which resolves to nothing (src/services/planService.ts:209-239) | saving an edit of any subject while the table holds at least one subject: the state-update callback reads a field of `undefined` and throws during the next render, outside the handler's `try`, after the success alert and the dialog close have been queued | show the saved subject; the service comments at src/services/planService.ts:205 and :208 document a reload of the list as the intended refresh, and the model takes the equivalent replacement by the saved record's id | high; not executed | PlanReport.ApplyUpdateAsWritten, PlanReport.UpdateAsWrittenFails | PlanReport.ReplaceById, PlanReport.ReplaceByIdKeepsOthers |
| src/components/features/plan-report/PlanReportView.tsx:364-366 | the create branch prepends the awaited result of `createPlanMateria`, which resolves to nothing (src/services/planService.ts:170-206), to the list | creating any subject: the list gets `undefined` as its first entry, and the next filter pass, during rendering, reads `codigo` of it and throws | show the created subject; src/services/planService.ts:205 documents a reload of the list by the view as the intended refresh, and the model takes the equivalent of putting the created record first | high; not executed | PlanReport.PrependAsWritten, PlanReport.FilterAsWritten, PlanReport.CreateAsWrittenBreaksTable | PlanReport.PrependCreated, PlanReport.FilterAsWrittenAgrees |
