# ouckah-sheets — a verified model of the job-application tracker

ouckah-sheets is a Next.js job-application tracker. Signed-in users keep a sheet of job
applications. Each application has a status history that moves through the stages Saved,
Applied, Screen, Interview and Offer. Users can filter the sheet by company, date and status;
plan interviews on 15-minute time slots; edit a profile; and make their sheet public. A few API
routes create users (each with a companion sheet), applications and interviews in MongoDB, and
a middleware sends signed-out visitors of the profile page to sign-in.

This project models that core in Dafny and proves properties of the model:

- **Shared vocabulary.** `Types` holds the records (`Application`, `Interview`,
  `InterviewDraft`, `HistoryEntry`, `Session`). `ApplicationFilter` is the company/date/status
  predicate that five components copy; here it is defined once. `ApplicationList` holds the list
  rebuilds the components apply to their `applications` state. `Visibility` is the
  public/private confirmation dialog. `Sequences` and `Text` model the JavaScript array and
  string operations used (`filter`, `find`, `findIndex`, `sort`, `toLowerCase`, `includes`,
  `startsWith`, `split`, `padStart`, `toString`).
- **Components.** Each component whose handlers update React state is a `class`. Each piece of
  state is a field, and each handler is a method that names the fields it changes in
  `modifies` and states their new values in `ensures`:
  - `JobApplicationTracker.Component`, `Sheet.Component`
  - `AddRowForm.Component`, `Profile.Component`
  - `InterviewForm.Component`, `InterviewsPage.Component`
  - `PublicSheet.Component`, `PublicUserTracker.Component`, `ExploreTracker.Component`

  The components that only render are functions: `StatusTimeline`, `InterviewList`,
  `FilterBar`, `ExploreList`. `InterviewForm.GenerateTimeOptions` keeps the source's nested
  loops and is proved equal to the 96-slot specification `TimeOptions`.
- **Server.** `Store` is an in-memory stand-in for the database: four collections of flat
  documents and an ObjectId counter. Its `Database` class has `findOne` and `insertOne`.
  `UserCreateRoute`, `ApplicationCreateRoute` and `InterviewCreateRoute` each have two forms:
  - a `Handle` method, which performs the route's store calls one after the other;
  - a pure `Post` function of the store before the request, which `Handle` is proved equal to.

  The lemmas about the routes are stated on `Post`. A thrown error is a `Fault` parameter
  naming the awaited step that throws. `Middleware` is the redirect decision.

Things the source leaves to the server or the browser are parameters of the model:
- a request's outcome: `ok: bool`, or the returned record as an `Option`;
- the session;
- `Date.now()` ids, given as `stamp`;
- the request time, given as `now`;
- the calendar tests of the interview date ranges, given as `Calendar`;
- the sort key of the interview lists, given as `key`.

The model follows the code as written, quirks included:
- The tracker matches applications by client `id`, while the sheet matches them by database
  `_id` (`Application.docId`).
- Deleting an application that has no `_id` removes every other row that has no `_id` either
  (`ApplicationList.RemoveUnsavedDropsAllUnsaved`).
- The tracker's `addApplication` replaces the submitted history with a single "Saved" entry.
  So a form status other than "Saved" leaves a status that disagrees with its history
  (`ApplicationList.SavedHistoryConsistentIff`).
- A failed confirm on the sheet closes the dialog but keeps the proposed value pending
  (`Visibility.SheetConfirmFailureUnsettles`).
- The application route looks the owner up by `email == body.userId`. On attribution it
  deletes the body's `email` key, not `userEmail`.
- The interview form sends `jobApplicationId`, while the interview route reads `applicationId`.
  So no interview the page sends is ever stored (`InterviewCreateRoute.DraftsNeverStored`).
- A failure of the sheet insert leaves the new user without a sheet
  (`UserCreateRoute.SheetFaultLeavesUserWithoutSheet`).

## Model

| member | source | states |
|---|---|---|
| Types.PublicApplication | src/components/PublicSheet.tsx:9-16 | a public record has no `_id`, position or interviews; its history is the one given, and it is status-consistent exactly when the last history entry carries its status |
| ApplicationFilter.Matches | src/components/JobApplicationTracker.tsx:85-92 | the three tests of `filteredApplications` for one application; the cleared filters pass every application |
| ApplicationFilter.MatchesIff | src/components/JobApplicationTracker.tsx:85-92 | an application is kept iff its lowercased company contains the lowercased company filter at some position, the date filter is empty or equal to its date, and the status filter is "All" or equal to its status |
| ApplicationFilter.FilterApplications | src/components/JobApplicationTracker.tsx:85-92 | the rows shown are exactly the matching applications, each as often as in the input, as an order-preserving subsequence |
| ApplicationFilter.ClearedShowsAll | src/components/Sheet.tsx:250-254 | with the filters ("", "", "All") every application is shown, in order |
| ApplicationList.WithSavedHistory | src/components/JobApplicationTracker.tsx:36 | the appended application's history is exactly [("Saved", its date)], whatever it carried; every other field is as submitted |
| ApplicationList.SavedHistoryConsistentIff | src/components/JobApplicationTracker.tsx:34-37 | the appended application's status agrees with its last history entry iff the submitted status is "Saved" |
| ApplicationList.ApplyStatus | src/components/JobApplicationTracker.tsx:44-47 | the status becomes the new one; the history (empty when missing) gains exactly one entry (status, date) at the end; all other fields are unchanged |
| ApplicationList.UpdateStatusById | src/components/JobApplicationTracker.tsx:42-52 | the list keeps its length and ids; elements with another id are unchanged; elements with the id get the new status and one appended history entry |
| ApplicationList.ApplyStatusesAppends | src/components/JobApplicationTracker.tsx:46 | successive updates only append: the history is the old one followed by all changes in order, with no validation, and the status is the last change |
| ApplicationList.UpdateKeepsConsistent | src/components/JobApplicationTracker.tsx:42-52 | if every application's status agrees with its last history entry, it still does after an update |
| ApplicationList.ReplaceByDocId | src/components/Sheet.tsx:182 | same length; exactly the elements whose `_id` is the id are replaced by the server's copy, the others stay in place |
| ApplicationList.ReplaceKeepsOthers | src/components/Sheet.tsx:182 | leaving out the elements with that `_id`, the list is the same before and after the replacement |
| ApplicationList.RemoveByDocId | src/components/Sheet.tsx:235 | exactly the elements with the deleted `_id` are dropped, every other element is kept as often as before, in order |
| ApplicationList.RemoveUnsavedDropsAllUnsaved | src/components/Sheet.tsx:235 | deleting an application without `_id` leaves only applications that have one |
| ApplicationList.AttachInterview | src/components/JobApplicationTracker.tsx:56-61 | same length; applications whose id is the interview's `jobApplicationId` get the interview appended to their list (empty when missing); others unchanged |
| ApplicationList.AttachInterviewTotal | src/components/JobApplicationTracker.tsx:56-61 | the number of attached interviews grows by exactly the number of applications with that id |
| JobApplicationTracker.Component.constructor | src/components/JobApplicationTracker.tsx:18-29 | no applications or interviews, form closed, private, dialog closed, filters cleared |
| JobApplicationTracker.Component.AddApplication | src/components/JobApplicationTracker.tsx:31-40 | exactly one application appended at the end, with history [("Saved", date)]; earlier ones unchanged; the add form closes |
| JobApplicationTracker.Component.UpdateApplicationStatus | src/components/JobApplicationTracker.tsx:42-52 | the list becomes `UpdateStatusById` of the old one |
| JobApplicationTracker.Component.AddInterview | src/components/JobApplicationTracker.tsx:54-62 | the interview list grows by the one stamped interview at the end; it is attached only to applications with its `jobApplicationId` |
| JobApplicationTracker.Component.SetAddingRow | src/components/JobApplicationTracker.tsx:103-109 | the Add Entry button opens the form, its cancel closes it |
| JobApplicationTracker.Component.SetFilters | src/components/JobApplicationTracker.tsx:113-121 | the filter bar's setters set the filters and nothing else |
| JobApplicationTracker.Component.ClearFilters | src/components/JobApplicationTracker.tsx:64-68 | the filters become ("", "", "All") and then every application is shown |
| JobApplicationTracker.Component.HandleVisibilityToggle | src/components/JobApplicationTracker.tsx:70-73 | pending becomes the opposite of isPublic and the dialog opens |
| JobApplicationTracker.Component.ConfirmVisibilityChange | src/components/JobApplicationTracker.tsx:75-78 | isPublic becomes pending and the dialog closes |
| JobApplicationTracker.Component.CancelVisibilityChange | src/components/JobApplicationTracker.tsx:80-83 | pending goes back to isPublic, isPublic unchanged, dialog closed |
| Visibility.Toggle | src/components/JobApplicationTracker.tsx:70-73 | keeps isPublic, proposes its opposite, opens the dialog |
| Visibility.Confirm | src/components/JobApplicationTracker.tsx:75-78 | adopts the pending value and closes |
| Visibility.Cancel | src/components/JobApplicationTracker.tsx:80-83 | keeps isPublic, resets pending to it, closes |
| Visibility.SheetToggle | src/components/Sheet.tsx:256-263 | signed out: nothing changes; signed in: the ordinary toggle |
| Visibility.SheetConfirm | src/components/Sheet.tsx:265-299 | always closes; isPublic takes the pending value only with a session email and an ok response |
| Visibility.DialogKeepsSettled | src/components/JobApplicationTracker.tsx:70-83 | with the dialog closed pending equals isPublic, and toggle, confirm and cancel keep that so |
| Visibility.ToggleThenResolve | src/app/interviews/page.tsx:147-167 | toggle then confirm flips the visibility; toggle then cancel restores the state before |
| Visibility.SheetConfirmSucceeds | src/components/Sheet.tsx:286 | an ok confirm with an email is the tracker's confirm |
| Visibility.SheetConfirmFailureUnsettles | src/components/Sheet.tsx:265-299 | a failed confirm after a toggle leaves the closed dialog with a pending value that differs from isPublic |
| Visibility.ToggleIgnoresPending | src/components/Sheet.tsx:256-263 | a toggle depends only on isPublic, so a stale pending value never leaks |
| Sheet.Component.constructor | src/components/Sheet.tsx:25-44 | empty title, not editing, no applications, form closed, private, filters cleared |
| Sheet.Component.HandleTitleChange | src/components/Sheet.tsx:76-78 | the title becomes the typed value |
| Sheet.Component.SaveTitle | src/components/Sheet.tsx:80-115 | editing always ends; the title is kept iff there is a session email and the update succeeded, and is "" otherwise |
| Sheet.Component.AddEntry | src/components/Sheet.tsx:117-123 | signed out: redirect and nothing else; signed in: the form opens |
| Sheet.Component.AddApplication | src/components/Sheet.tsx:125-165 | with an email and an ok response the server's application is appended and the form closes; otherwise list and form are unchanged |
| Sheet.Component.UpdateApplicationStatus | src/components/Sheet.tsx:167-195 | on an ok response the elements with that `_id` are replaced by the server's copy; a failure changes nothing |
| Sheet.Component.UpdateApplicationDetails | src/components/Sheet.tsx:197-225 | the same replacement after a details request; a failure changes nothing |
| Sheet.Component.DeleteApplication | src/components/Sheet.tsx:227-248 | on an ok response every element with the deleted `_id` goes, the rest keep their order; a failure changes nothing |
| Sheet.Component.SetFilters | src/components/Sheet.tsx:306-313 | the filter bar's setters set the filters |
| Sheet.Component.ClearFilters | src/components/Sheet.tsx:250-254 | filters cleared, after which every application is shown |
| Sheet.Component.HandleVisibilityToggle | src/components/Sheet.tsx:256-263 | signed out: only a redirect, no dialog, pending unchanged; signed in: the toggle |
| Sheet.Component.ConfirmVisibilityChange | src/components/Sheet.tsx:265-299 | the state becomes `SheetConfirm` of the old one |
| Sheet.Component.CancelVisibilityChange | src/components/Sheet.tsx:301-304 | pending back to isPublic, dialog closed |
| AddRowForm.Component.constructor | src/components/AddRowForm.tsx:20-25 | all fields empty except the date (today) and the status "Saved" |
| AddRowForm.Component.Fill | src/components/AddRowForm.tsx:48-95 | the inputs set the five fields |
| AddRowForm.Component.HandleSubmit | src/components/AddRowForm.tsx:27-39 | one application handed over, with the form's fields verbatim and history exactly [(status, date)], so its status agrees with its history |
| AddRowForm.SubmittedSurvivesSavedStamp | src/components/JobApplicationTracker.tsx:36 | the tracker's history override leaves a submitted application as it is iff its status is "Saved" |
| StatusTimeline.StagePointFor | src/components/StatusTimeline.tsx:27-51 | a stage is active iff some history entry has its name, and then shows the date of the first such entry |
| StatusTimeline.Timeline | src/components/StatusTimeline.tsx:4-65 | exactly five points, Saved, Applied, Screen, Interview, Offer in that order, each from the history (empty when missing); the edit button iff a handler is given |
| StatusTimeline.NoHistoryNothingActive | src/components/StatusTimeline.tsx:17 | without a history no stage is active |
| StatusTimeline.OffStageEntriesIgnored | src/components/StatusTimeline.tsx:27-29 | entries whose status is not a stage never change the timeline |
| StatusTimeline.CurrentStageActive | src/components/StatusTimeline.tsx:27-29 | an application whose status is a stage and agrees with its last entry shows that stage active |
| FilterBar.Render | src/components/FilterBar.tsx:27-88 | each input's clear button iff its text is non-empty; Clear Filters iff the filters are not ("", "", "All") |
| FilterBar.AppliedHidesSomeApplication | src/components/FilterBar.tsx:27 | when the filters count as applied some application is hidden |
| FilterBar.NotAppliedShowsEverything | src/components/FilterBar.tsx:27 | when they do not, every application is shown |
| Profile.Set | src/components/Profile.tsx:83-88 | the named field takes the value; every other field, both lists and the visibility are unchanged |
| Profile.SetUnchanged | src/components/Profile.tsx:83-88 | writing a field's own value changes nothing |
| Profile.InitialProfileEmpty | src/components/Profile.tsx:37-63 | every text field "", both lists empty, sheet private |
| Profile.SetExperience | src/components/Profile.tsx:131-138 | only the named field of the entry changes |
| Profile.SetEducation | src/components/Profile.tsx:154-161 | only the named field of the entry changes |
| Profile.RemoveAfterAdd | src/components/Profile.tsx:121-145 | removing the entry just added gives back the list before |
| Profile.Component.constructor | src/components/Profile.tsx:37-63 | the profile starts as the initial profile |
| Profile.Component.HandleChange | src/components/Profile.tsx:83-88 | the profile becomes `Set` of the old one |
| Profile.Component.HandleSwitchChange | src/components/Profile.tsx:90-92 | only the visibility changes, to the switch's value |
| Profile.Component.AddExperience | src/components/Profile.tsx:121-129 | one empty experience appended at the end, everything else unchanged |
| Profile.Component.UpdateExperience | src/components/Profile.tsx:131-138 | only entry `index` is rewritten by the field update; an out-of-range index changes nothing |
| Profile.Component.RemoveExperience | src/components/Profile.tsx:140-145 | exactly entry `index` is dropped and the rest keep their order; an out-of-range index changes nothing |
| Profile.Component.AddEducation | src/components/Profile.tsx:147-152 | one empty education entry appended at the end |
| Profile.Component.UpdateEducation | src/components/Profile.tsx:154-161 | only entry `index` is rewritten; out of range changes nothing |
| Profile.Component.RemoveEducation | src/components/Profile.tsx:163-168 | exactly entry `index` is dropped; out of range changes nothing |
| Sequences.RemoveAt | src/components/Profile.tsx:140-145 | an index in range drops exactly that element and keeps the others in order; any other index drops nothing |
| Sequences.UpdateAt | src/components/Profile.tsx:131-138 | only the element at the index is rewritten; any other index changes nothing |
| InterviewForm.Hour12 | src/components/InterviewForm.tsx:102 | `hour % 12 \|\| 12` lies in 1..12 |
| InterviewForm.TimeOptions | src/components/InterviewForm.tsx:98-109 | 96 entries, entry k the label of hour k/4 at minute 15·(k mod 4) |
| InterviewForm.GenerateTimeOptions | src/components/InterviewForm.tsx:98-109 | the nested loops push exactly `TimeOptions()` |
| InterviewForm.MinuteText | src/components/InterviewForm.tsx:104 | minutes are written with exactly two digits and read back as the minute |
| InterviewForm.QuarterText | src/components/InterviewForm.tsx:101-104 | the minute text is one of 00, 15, 30, 45 |
| InterviewForm.ParseTimeLabel | src/components/InterviewForm.tsx:102-105 | every label reads back as its hour and minute in 24-hour time |
| InterviewForm.TimeOptionsChronological | src/components/InterviewForm.tsx:98-109 | option k is the time 15·k minutes after midnight, so the options are in chronological order and all distinct |
| InterviewForm.HourRendering | src/components/InterviewForm.tsx:102-103 | hour 0 shows as 12 AM, 12 as 12 PM, 1-11 as AM, 13-23 as 1-11 PM |
| InterviewForm.OptionMinutes | src/components/InterviewForm.tsx:98-109 | every option's minute part is one of 00, 15, 30, 45 |
| InterviewForm.FilterTimes | src/components/InterviewForm.tsx:180-191 | exactly the options the search keeps, each as many times as it occurs in the list, as an order-preserving subsequence |
| InterviewForm.KeepsTime | src/components/InterviewForm.tsx:182-190 | the search test for one option; an empty search keeps every option |
| InterviewForm.EmptySearchKeepsAll | src/components/InterviewForm.tsx:180-191 | an empty search keeps every option |
| InterviewForm.KeepsSlotIff | src/components/InterviewForm.tsx:182-190 | a slot is kept iff its hour text starts with the search's text before ":" or its lowercased label starts with the lowercased search |
| InterviewForm.SetDraft | src/components/InterviewForm.tsx:66-71 | only the named field of the draft changes |
| InterviewForm.Component.constructor | src/components/InterviewForm.tsx:50-60 | empty draft with type Phone and no email, popover closed, empty search |
| InterviewForm.Component.HandleChange | src/components/InterviewForm.tsx:66-71 | the draft becomes `SetDraft` of the old one |
| InterviewForm.Component.HandleTypeChange | src/components/InterviewForm.tsx:231-243 | only the interview type changes |
| InterviewForm.Component.HandleOpenChange | src/components/InterviewForm.tsx:154-157 | the popover opens or closes; closing clears the search |
| InterviewForm.Component.SetTimeSearch | src/components/InterviewForm.tsx:172-176 | the search becomes the typed text |
| InterviewForm.Component.SelectTime | src/components/InterviewForm.tsx:195-199 | the time is set, the popover closes and the search clears |
| InterviewForm.Component.HandleSubmit | src/components/InterviewForm.tsx:77-96 | signed out: redirect, nothing submitted, form unchanged; signed in: the current draft submitted once, then the form resets to empty strings, type Phone, empty email |
| InterviewsPage.KeepsInterview | src/app/interviews/page.tsx:124-144 | the `switch (dateRange)` test for one interview; "all", and "custom" without a selected day, keep every interview |
| InterviewsPage.FilterInterviews | src/app/interviews/page.tsx:122-145 | exactly the interviews the range keeps, each as many times as it occurs in the list, as an order-preserving subsequence |
| InterviewsPage.UnrestrictedRangesKeepAll | src/app/interviews/page.tsx:138-142 | "all", and "custom" without a selected day, keep every interview |
| InterviewsPage.StampEmail | src/app/interviews/page.tsx:72-74 | with a session email the draft's userEmail becomes it; otherwise the draft is sent as it is; nothing else changes |
| InterviewsPage.Component.constructor | src/app/interviews/page.tsx:47-53 | no interviews or applications, no day selected, range "all", private |
| InterviewsPage.Component.HandleDateSelect | src/app/interviews/page.tsx:108-113 | the selected day is set; a defined day switches the range to "custom", an undefined one leaves it |
| InterviewsPage.Component.HandleDateRangeChange | src/app/interviews/page.tsx:115-120 | the range is set; any range but "custom" clears the selected day, "custom" keeps it |
| InterviewsPage.Component.HandleAddInterview | src/app/interviews/page.tsx:70-106 | the request carries the email-stamped draft; on success the list becomes the old one plus the response, sorted; on failure it is unchanged |
| InterviewsPage.Component.HandleVisibilityToggle | src/app/interviews/page.tsx:147-150 | the ordinary toggle |
| InterviewsPage.Component.ConfirmVisibilityChange | src/app/interviews/page.tsx:152-162 | the ordinary confirm |
| InterviewsPage.Component.CancelVisibilityChange | src/app/interviews/page.tsx:164-167 | the ordinary cancel |
| Sequences.SortBy | src/components/InterviewList.tsx:30-34 | the result is sorted by the key and is a permutation of the input, which is a value and is not changed |
| InterviewList.GetTitle | src/components/InterviewList.tsx:14-28 | the title is "Today's Interviews", "This Week's Interviews", "This Month's Interviews" and "All Interviews" exactly for the ranges "today", "thisWeek", "thisMonth" and "all", and "Upcoming Interviews" exactly for "custom" without a day; a picked day is named in the title |
| InterviewList.UnrestrictedTitles | src/components/InterviewList.tsx:14-28 | whenever the title is "All Interviews" or "Upcoming Interviews" the page shows every interview |
| InterviewList.CustomTitleNamesDay | src/components/InterviewList.tsx:22-23 | "custom" with a day is titled after that day |
| InterviewList.CompanyFor | src/components/InterviewList.tsx:47-50 | "Unknown Company" when no application has the interview's id; a named company only from an application with that id; never empty |
| InterviewList.CompanyForFirstMatch | src/components/InterviewList.tsx:47-50 | the company shown is that of the first application with the id, unless its name is empty |
| InterviewList.Render | src/components/InterviewList.tsx:13-60 | the title from the range; the empty-state message iff there are no interviews; otherwise rows that are a sorted permutation of the interviews, each under its company |
| PublicSheet.RenderSheet | src/components/PublicSheet.tsx:77-83 | "Loading..." iff loading, checked first; "Private Sheet." iff loaded and not public; otherwise the title and the filtered rows |
| PublicSheet.PrivateShowsNoRows | src/components/PublicSheet.tsx:81-83 | a private loaded sheet renders the same whatever the filters |
| PublicSheet.ClearedShowsSheet | src/components/PublicSheet.tsx:62-75 | a public loaded sheet with cleared filters shows every application |
| PublicSheet.Component.constructor | src/components/PublicSheet.tsx:38-46 | loading, empty title and list, private, no filter |
| PublicSheet.Component.LoadData | src/components/PublicSheet.tsx:48-60 | a found sheet sets title, rows and visibility and ends loading; a missing sheet changes nothing and keeps loading |
| PublicSheet.Component.SetFilters | src/components/PublicSheet.tsx:68-75 | the setters set the filters |
| PublicSheet.Component.ClearFilters | src/components/PublicSheet.tsx:62-66 | filters cleared; a loaded public sheet then shows every application |
| PublicUserTracker.FetchUserData | src/components/PublicUserTracker.tsx:73 | a known id gives its table entry, any other the unknown user with no applications |
| PublicUserTracker.FetchCases | src/components/PublicUserTracker.tsx:27-73 | "user1" is Alice with 2 applications, "user2" Bob with 1, anything else "Unknown User" with none |
| PublicUserTracker.DummyDataConsistent | src/components/PublicUserTracker.tsx:36-67 | in every table record the status is that of the last history entry |
| PublicUserTracker.Component.constructor | src/components/PublicUserTracker.tsx:77-84 | nothing loaded, filters cleared |
| PublicUserTracker.Component.LoadData | src/components/PublicUserTracker.tsx:86-96 | name and applications from the lookup, loading ended |
| PublicUserTracker.Component.SetFilters | src/components/PublicUserTracker.tsx:104-111 | the setters set the filters |
| PublicUserTracker.Component.ClearFilters | src/components/PublicUserTracker.tsx:98-102 | filters cleared, then every application is shown |
| ExploreTracker.DummyDataConsistent | src/components/ExploreTracker.tsx:21-61 | in every record the status is that of the last history entry |
| ExploreTracker.FilterEntries | src/components/ExploreTracker.tsx:77-84 | exactly the records whose application passes the shared filter, each as many times as it occurs in the list, as an order-preserving subsequence |
| ExploreTracker.ClearedShowsAllEntries | src/components/ExploreTracker.tsx:71-84 | cleared filters show every record |
| ExploreTracker.Component.constructor | src/components/ExploreTracker.tsx:64 | the list starts as exactly the three records, in order |
| ExploreTracker.Component.SetFilters | src/components/ExploreTracker.tsx:77-84 | the setters set the filters |
| ExploreTracker.Component.ClearFilters | src/components/ExploreTracker.tsx:71-75 | filters cleared, then all three records are shown |
| ExploreList.FilteredUsers | src/components/ExploreList.tsx:28 | a user is listed iff its lowercased name contains the lowercased term; an order-preserving subsequence of the five users |
| ExploreList.KeptUsersContainTerm | src/components/ExploreList.tsx:28 | every listed name contains the term case-insensitively at some position |
| ExploreList.EmptySearchListsAll | src/components/ExploreList.tsx:16-28 | an empty term lists all five users |
| Text.IncludesIff | src/components/JobApplicationTracker.tsx:87 | `includes` holds iff the needle occurs at some position |
| Text.ToLowerIdempotent | src/components/ExploreList.tsx:28 | lowercasing twice is lowercasing once |
| Text.DecimalRoundTrip | src/components/InterviewForm.tsx:104 | a number's decimal text reads back as the number |
| Store.WithId | src/app/api/application/create/route.ts:33 | `insertOne` keeps a document's own `_id` when it is set and not null, and gives any other document the next ObjectId; the stored `_id` is never null |
| Store.Insert | src/app/api/user/create/route.ts:28-52 | one document appended to the named collection only, the counter moves on, the stored document is returned |
| Store.FindFirst | src/app/api/user/create/route.ts:22 | nothing found iff no document matches, where a null or undefined query value matches a missing or null key; otherwise a stored matching document, the first one (`FindFirstAt`) |
| Store.FindFirstEither | src/app/api/interview/create/route.ts:19-21 | nothing found iff no document matches either query; otherwise a stored one that matches one of them |
| Store.Database.FindOne | src/app/api/user/create/route.ts:22 | the database lookup finds nothing iff no document of the collection matches, and otherwise a stored matching document |
| Store.Database.InsertOne | src/app/api/user/create/route.ts:28 | the database's collections change as `Insert` says |
| Store.InsertKeepsIdsIssued | src/app/api/application/create/route.ts:33 | inserting a document without an ObjectId `_id` keeps every stored document identified by a non-null `_id`, with every ObjectId below the counter |
| Store.ServerError | src/app/api/user/create/route.ts:55-58 | a thrown error answers 500 with its message |
| UserCreateRoute.NewUser | src/app/api/user/create/route.ts:28-42 | the stored user carries the email sent and no `_id` of its own |
| UserCreateRoute.NewUserFields | src/app/api/user/create/route.ts:28-42 | the rest of the stored user: the name sent, pfp the image (null when absent), every profile text "", no experience or education, private, created now |
| UserCreateRoute.NewSheet | src/app/api/user/create/route.ts:45-52 | the sheet is owned by the new user's id and has no `_id` of its own |
| UserCreateRoute.NewSheetFields | src/app/api/user/create/route.ts:45-52 | the rest of the sheet: titled name + "'s Sheet", no applications, private, created and updated now |
| UserCreateRoute.Registered | src/app/api/user/create/route.ts:28-52 | after both inserts: one more user with the next ObjectId, one more sheet owned by it with the one after, the other collections unchanged |
| UserCreateRoute.Post | src/app/api/user/create/route.ts:8-59 | the route answers 200, 201, 400 or 500; 200 and 400 change nothing; at most one user is appended and the stored users are kept; a sheet is added exactly when the answer is 201; applications and interviews never change |
| UserCreateRoute.Handle | src/app/api/user/create/route.ts:8-59 | the handler's store and response are those of `Post` |
| UserCreateRoute.MissingFieldsRejected | src/app/api/user/create/route.ts:17-19 | a missing or empty email or name gets 400 and stores nothing |
| UserCreateRoute.ExistingUserReturned | src/app/api/user/create/route.ts:22-25 | a known email gets 200 with the first user holding it, and the store does not change |
| UserCreateRoute.NewUserCreated | src/app/api/user/create/route.ts:27-54 | a new email leaves the store `Registered` describes (one user, one sheet owned by it, nothing else) and answers 201 with both ids |
| UserCreateRoute.CreateTwiceCreatesOnce | src/app/api/user/create/route.ts:22-45 | the same body sent twice: the second call changes nothing and answers 200 with the user the first call created or found |
| UserCreateRoute.AddUserKeepsInvariants | src/app/api/user/create/route.ts:22-42 | storing a user whose email is new keeps emails unique, sheets owned and ids issued |
| UserCreateRoute.AddSheetKeepsInvariants | src/app/api/user/create/route.ts:45-52 | storing a sheet of a stored user keeps the invariants |
| UserCreateRoute.PostKeepsInvariants | src/app/api/user/create/route.ts:8-59 | every call, failed or not, keeps emails unique, every sheet owned by a stored user, and ids issued |
| UserCreateRoute.SheetFaultLeavesUserWithoutSheet | src/app/api/user/create/route.ts:45-58 | when the sheet insert throws, the new user stays stored, no sheet names it, and the answer is 500 |
| RouteBody.Attribute | src/app/api/application/create/route.ts:24-27 | with a truthy userEmail, userId becomes the user's `_id` and the `email` key goes; otherwise the body is unchanged; no other key changes |
| RouteBody.Stamp | src/app/api/application/create/route.ts:30-31 | createdAt and lastUpdated are the request time, no other key changes |
| RouteBody.PreparedKeepsId | src/app/api/application/create/route.ts:24-33 | the document handed to `insertOne` has an `_id` exactly when the request body had one, and never an ObjectId of its own, so `insertOne` assigns the next one |
| ApplicationCreateRoute.Post | src/app/api/application/create/route.ts:8-40 | the route answers 201, having appended exactly the returned document to the applications, or 500 with the store unchanged; users, sheets and interviews never change |
| ApplicationCreateRoute.Handle | src/app/api/application/create/route.ts:8-40 | the handler's store and response are those of `Post` |
| ApplicationCreateRoute.UnknownUserRejected | src/app/api/application/create/route.ts:18-21 | no user whose email is the body's userId: nothing stored, 500 "User not found" |
| ApplicationCreateRoute.NullUserIdFindsUserWithoutEmail | src/app/api/application/create/route.ts:18 | a `null` userId queries `{ email: null }`, which matches a user without an email, so the application is stored with 201 |
| ApplicationCreateRoute.ApplicationStored | src/app/api/application/create/route.ts:18-35 | with the first such user, exactly one application is stored, attributed and stamped, nothing else changes, and it is returned with 201 |
| ApplicationCreateRoute.FaultStoresNothing | src/app/api/application/create/route.ts:36-39 | a failure at any step stores nothing |
| ApplicationCreateRoute.StoredKeepsBodyKeys | src/app/api/application/create/route.ts:24-33 | the stored application keeps every key sent except email, userId, the stamps and a null `_id`, which the driver replaces; userEmail stays |
| ApplicationCreateRoute.PostKeepsIdsIssued | src/app/api/application/create/route.ts:33 | a JSON body keeps every stored document identified below the counter |
| InterviewCreateRoute.Post | src/app/api/interview/create/route.ts:8-49 | the route answers 201, having appended exactly the returned document to the interviews, or 500 with the store unchanged; users, sheets and applications never change |
| InterviewCreateRoute.Handle | src/app/api/interview/create/route.ts:8-49 | the handler's store and response are those of `Post` |
| InterviewCreateRoute.UnknownUserRejected | src/app/api/interview/create/route.ts:19-24 | no user with `_id` userId or email userEmail: nothing stored, 500 "User not found" |
| InterviewCreateRoute.MissingApplicationIdRejected | src/app/api/interview/create/route.ts:33-36 | in any store whose documents carry non-null ids, a body without applicationId stores nothing and gets 500 "Job application not found" |
| InterviewCreateRoute.InterviewStored | src/app/api/interview/create/route.ts:27-44 | with both checks passed, exactly one interview is stored, attributed and stamped, and returned with 201 |
| InterviewCreateRoute.DraftBody | src/app/interviews/page.tsx:72-79 | the page's request body carries the draft's fields, the application as jobApplicationId and no applicationId |
| InterviewCreateRoute.DraftsNeverStored | src/components/InterviewForm.tsx:52 | in any store whose documents carry non-null ids, every body the page sends ends in 500 and stores nothing |
| InterviewCreateRoute.PostKeepsIdsIssued | src/app/api/interview/create/route.ts:42 | a JSON body keeps every stored document identified below the counter |
| Middleware.FindCurrentRoute | src/middleware.ts:5-13 | a route is found iff the whole path is a protected path, "/profile" being the only one |
| Middleware.Decide | src/middleware.ts:15-27 | a redirect to origin + "/signin" iff the path is "/profile" and there is no session; otherwise the request passes |
| Middleware.OnlyProfileGuarded | src/middleware.ts:9-13 | a session is never redirected; "/profile/edit", "/profiles" and "/" pass even without one |

## Left out

- Requests, toasts, the router and `useSession` are I/O. Each request's outcome is a parameter: `ok`, or the record the server returned.
- The loading effects of the sheet, the profile and the interviews page are left out, because they are fetches. This includes the `Promise.all` on the page. The public sheet's loader is modelled by its result only.
- The profile's `handleSubmit` and the delete route are left out. The first is a single request. The route body is unfinished code.
- The database is an in-memory store of flat documents. Nested arrays are written as one `EmptyList` value, because the three routes only ever store empty ones.
- Duplicate-key errors, connection pooling and concurrent requests are left out. In particular, the race between two simultaneous user creations is not modelled; calls are sequential.
- Every `new Date()` of one request is one `now`. The milliseconds between the route's separate `new Date()` calls are not modelled.
- `Date.now()` ids are the `stamp` parameter.
- Calendar tests and sort keys are parameters:
  - the "today", "this week" and "this month" ranges of the interviews page are the oracles in `Calendar`;
  - the date sorts of the interview lists use an abstract integer `key`.
- The sort keys stand in for the date comparison. The form's labels ("9:00 AM") make `new Date(date + "T" + time)` invalid, so the comparator returns NaN and the resulting order is engine-specific. The model states that the order is sorted by the key and is a permutation.
- Sequences.SortBy: stability is not stated.
- Store.FindFirst: `findOne` without a sort promises no particular order. The model picks the first match in insertion order, which is what a collection scan returns but not a guarantee of the database.
- InterviewList.GetTitle: the source's `default:` branch of `getTitle` has no counterpart, because `DateRange` is an enumeration of the five ranges and no other value can reach it.
- `toLocaleDateString` displays are left out, because they depend on locale and time zone. `InterviewList.GetTitle` shows the selected day as the string it is given.
- Lowercasing covers ASCII letters only. Unicode case mapping is not modelled.
- `findCurrentRoute` builds a regular expression. For parameter-free patterns it is exact equality, and that is what is modelled. The `matcher` regular expression is left out.
- The dummy table of the public user tracker is a Dafny `map`. Prototype keys such as "toString" are not modelled; in the source they are found on the plain object.
- `handleAddInterview` appends `await response.json()`, which is the route's `{ message, interview }` envelope. The model appends the response value it is given, so it does not model the envelope.
- Computed `[name]` keys of the profile and interview form handlers are limited to the form's own input names, as enumerations.
- Request bodies hold scalar JSON values only, and JSON numbers are integers: a fractional number such as 1.5 cannot be represented. `UserCreateRoute.ValueText` renders `${name}` for strings, numbers, booleans and null; nested JSON objects are not modelled.
- StatusBadge, the status lists of the add and edit forms, and the remaining UI-only components are left out. Their data comes from a module that is not part of this model, or they hold no logic.
- Authentication configuration is left out; it is OAuth plus a request.
