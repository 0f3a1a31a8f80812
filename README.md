# Nagar Rakshak civic complaints — a Dafny model

Nagar Rakshak is a web front end where citizens report civic issues (a broken
street light, a pothole, an overflowing bin) and follow them, and where the
municipal authority sees every complaint and assigns it to an officer. This
project models the logic of that front end and of the database shape it is
typed against:

- `Schema` (`schema.dfy`): the `issue_status`, `issue_type` and `user_role`
  enumerations with their constant arrays, and the Row, Insert and Update
  shapes of the `complaints` and `complaint_updates` tables, with records as
  maps from column to value.
- `ComplaintTracking` (`tracking.dfy`): the status timeline of one complaint
  (which steps are completed, the current step, the timestamp shown per
  step), its priority label, and the feedback form of a resolved complaint
  (class `FeedbackForm`).
- `ComplaintCards` (`cards.dfy`), `AdminDashboard` (`admin.dfy`) and
  `TrackComplaints` (`track.dfy`): the complaint lists of the authority and
  of the citizen — search, status and location filters, per-status counts,
  status and priority labels — and the authority's assignment dialog
  (class `AssignDialog`).
- `RegisterComplaint` (`register.dfy`): the three-step registration form
  (class `RegistrationWizard`), its step checks, the city lookup by state and
  the media upload.
- `Auth` (`auth.dfy`): the sign-in page (class `AuthFlow`) — splash, phone
  number, one-time code, generated credentials, login — with the digit-only
  input sanitising and the generated username.
- `Helpline` (`helpline.dfy`): the helpline directory, its search and its
  split into emergency and department numbers.
- `Seqs`, `Text` and `Wrappers`: the JavaScript built-ins the pages lean on
  (`Array.prototype.filter`, `findIndex`/`find`, `String.prototype.trim`,
  `toLowerCase`, `includes`) and an `Option` type.

Statuses appear on the pages as plain strings (the lists hold mock records
whose statuses are strings and the filters compare strings), so the page
modules work on strings; `Schema` ties those strings to the typed enumeration.
Each event handler that changes page state is a method of a class whose
fields are that page's `useState` variables; handlers that finish after a
`setTimeout` are one atomic step.

## Model

| member | source | states |
|---|---|---|
| Schema.ParseStatus | src/integrations/supabase/types.ts:316-317 | a string names a member of `issue_status` exactly when it is one of the four constant values, and then it names that member |
| Schema.StatusConstantsExact | src/integrations/supabase/types.ts:444-447 | the `issue_status` array has four distinct entries, lists every member at its declaration position, and holds nothing else |
| Schema.IssueTypeConstantsExact | src/integrations/supabase/types.ts:448 | the `issue_type` array has five distinct entries, exactly the members of the type |
| Schema.UserRoleConstantsExact | src/integrations/supabase/types.ts:449 | the `user_role` array has three distinct entries, exactly the members of the type |
| Schema.ConformsIffRequiredPresent | src/integrations/supabase/types.ts:114-132 | a well-typed record fits a shape exactly when it holds every non-optional column |
| Schema.ComplaintsRowNullability | src/integrations/supabase/types.ts:95-113 | a `complaints` row has all seventeen columns; only description, id, issue_type and title are non-null; status may be null |
| Schema.ComplaintsInsertRequired | src/integrations/supabase/types.ts:114-132 | a well-typed `complaints` Insert is well-formed iff it has title, description and issue_type |
| Schema.ComplaintsInsertMatchesRow | src/integrations/supabase/types.ts:95-132 | the Insert shape has the Row's columns with the same types and nullability |
| Schema.ComplaintsUpdateMatchesRow | src/integrations/supabase/types.ts:133-151 | the Update shape is the Row shape with every column optional |
| Schema.ApplyUpdate | src/integrations/supabase/types.ts:133-151 | applying an update replaces exactly the columns it names and keeps every other column of the row |
| Schema.EmptyUpdate | src/integrations/supabase/types.ts:133-151 | the empty object is a valid update and changes nothing |
| Schema.UpdateKeepsRow | src/integrations/supabase/types.ts:133-151 | a row updated with any valid Update object is still a valid row |
| Schema.RowStatus | src/integrations/supabase/types.ts:109 | a row's status is null or exactly the name of one `issue_status` member |
| Schema.ComplaintUpdatesInsertRequired | src/integrations/supabase/types.ts:57-66 | a well-typed `complaint_updates` Insert is well-formed iff it has new_status; old_status may be absent or null |
| Schema.ComplaintUpdatesShapesAgree | src/integrations/supabase/types.ts:47-76 | the three `complaint_updates` shapes declare the same eight columns alike; Update makes all optional |
| Seqs.Filter | src/pages/AdminDashboard.tsx:149-156 | `filter` keeps, in order, exactly the elements satisfying the predicate |
| Seqs.FilterMultiplicity | src/pages/AdminDashboard.tsx:149-156 | `filter` keeps every passing element exactly as often as it occurs, and no other element |
| Seqs.FindIndex | src/pages/ComplaintTracking.tsx:110-113 | `findIndex` returns the first index satisfying the predicate, or -1 exactly when none does |
| Seqs.FilterPartition | src/pages/Helpline.tsx:113-114 | filtering by a predicate and by its negation splits a list: lengths add up and the multisets reunite to the list |
| Text.Trim | src/pages/RegisterComplaint.tsx:81 | `trim` gives the slice of the text between a leading and a trailing run of ECMAScript whitespace, with no whitespace left at either end; the result is empty iff the text is all whitespace |
| Text.Lower | src/pages/AdminDashboard.tsx:150-152 | `toLowerCase` keeps the length and lowercases each letter A-Z |
| Text.Includes | src/pages/AdminDashboard.tsx:150-152 | `includes` holds iff the needle occurs at some position of the text |
| Text.MatchIgnoresQueryCase | src/pages/TrackComplaints.tsx:104-106 | queries that lowercase alike match the same text |
| Text.EmptyQueryMatches | src/pages/TrackComplaints.tsx:104-106 | the empty query matches every text |
| ComplaintCards.CountStatus | src/pages/AdminDashboard.tsx:87-90 | a status count and the number of cards without that status add up to the list length; the count is 0 iff no card has the status and the full length iff every card has it |
| ComplaintCards.KnownStatusCountsSum | src/pages/AdminDashboard.tsx:85-92 | when every complaint has one of the four statuses, the four status counts add up to the number of complaints |
| ComplaintCards.CountStatusCons | src/pages/TrackComplaints.tsx:196-220 | a status count is the first complaint's contribution plus the count of the rest |
| ComplaintTracking.StepsFollowSchema | src/pages/ComplaintTracking.tsx:47-80 | the timeline's steps are the `issue_status` members in declaration order |
| ComplaintTracking.CurrentStep | src/pages/ComplaintTracking.tsx:110-113 | the current step is the position of the status among the steps, or 0 when it is not among them; always below 4 |
| ComplaintTracking.StatusSteps | src/pages/ComplaintTracking.tsx:47-80 | four steps in status order; the first is always completed; step i is completed iff i is at most the current step |
| ComplaintTracking.CompletionMonotone | src/pages/ComplaintTracking.tsx:54-78 | a completed step has every earlier step completed |
| ComplaintTracking.CompletedUpToStatus | src/pages/ComplaintTracking.tsx:62-78 | for a schema status at position k, step i is completed iff i <= k |
| ComplaintTracking.StepTimestamp | src/pages/ComplaintTracking.tsx:198 | a step's time is the first matching update's timestamp, or the creation time when there is no such update or its timestamp is empty |
| ComplaintTracking.DisplayedTimestamp | src/pages/ComplaintTracking.tsx:196-200 | a time is shown exactly beside the completed steps, and it is that step's timestamp |
| ComplaintTracking.FeedbackShownIffTimelineComplete | src/pages/ComplaintTracking.tsx:255 | the feedback panel shows exactly when all four steps are completed |
| ComplaintTracking.PriorityLabel | src/pages/ComplaintTracking.tsx:159 | priority 1 is Low, 2 is Medium, anything else High, each iff |
| ComplaintTracking.PriorityLabelsComparedWithList | src/pages/ComplaintTracking.tsx:159 | this label agrees with the list's label on 1..3; outside it says High where the list says Medium |
| ComplaintTracking.FeedbackForm.constructor | src/pages/ComplaintTracking.tsx:14-15 | the feedback form starts with an empty comment and no rating |
| ComplaintTracking.FeedbackForm.Rate | src/pages/ComplaintTracking.tsx:268-271 | a star sets the rating and keeps the comment |
| ComplaintTracking.FeedbackForm.Comment | src/pages/ComplaintTracking.tsx:281-285 | typing sets the comment and keeps the rating |
| ComplaintTracking.FeedbackForm.Submit | src/pages/ComplaintTracking.tsx:82-98 | accepted iff the comment is not blank and a rating is chosen; acceptance clears both, rejection changes nothing |
| AdminDashboard.CountHighPriority | src/pages/AdminDashboard.tsx:91 | the priority-3 count plus the number of other complaints is the list length; it is 0 iff no complaint has priority 3 and the full length iff every one has |
| AdminDashboard.ComputeStats | src/pages/AdminDashboard.tsx:85-92 | the total is the list length; new, assigned, in-progress and resolved are the counts of registered, assigned, in_progress and resolved complaints, high priority is the priority-3 count; each is bounded by the total, and with known statuses the four status counts sum to it |
| AdminDashboard.HighPriorityPartition | src/pages/AdminDashboard.tsx:91 | high-priority and other complaints together make up the total |
| AdminDashboard.StatusText | src/pages/AdminDashboard.tsx:104-112 | each known status gets its own label (registered is "New"); unknown statuses show as they are |
| AdminDashboard.StatusTextDistinct | src/pages/AdminDashboard.tsx:104-112 | different known statuses get different labels |
| AdminDashboard.FilteredComplaints | src/pages/AdminDashboard.tsx:149-156 | an order-preserving subsequence holding exactly the complaints that pass search, status and location tests, each as often as it occurs in the list |
| AdminDashboard.NoFilterShowsAll | src/pages/AdminDashboard.tsx:149-156 | with empty search and both filters on all, the whole list shows |
| AdminDashboard.StatusFilterMatchesCount | src/pages/AdminDashboard.tsx:85-92 | filtering on one status lists as many complaints as that status's statistic |
| AdminDashboard.StatsMatchStatusFilters | src/pages/AdminDashboard.tsx:85-90 | each of the four status cards shows exactly the length of the list the status filter keeps for that status |
| AdminDashboard.SearchIgnoresCase | src/pages/AdminDashboard.tsx:150-152 | searches differing only in letter case give the same list |
| AdminDashboard.AssignOfferedOnNewComplaints | src/pages/AdminDashboard.tsx:351 | the complaints offering Assign are exactly the ones counted as new |
| AdminDashboard.AssignDialog.constructor | src/pages/AdminDashboard.tsx:24-31 | the dialog starts with an empty form and no complaint selected |
| AdminDashboard.AssignDialog.Select | src/pages/AdminDashboard.tsx:351-354 | Assign on a registered complaint selects it and keeps the form |
| AdminDashboard.AssignDialog.Edit | src/pages/AdminDashboard.tsx:369-404 | an input replaces its own field only; the department is one of the five select values |
| AdminDashboard.AssignDialog.Assign | src/pages/AdminDashboard.tsx:123-147 | accepted iff name, phone and department are filled; acceptance resets form and selection, rejection changes nothing |
| TrackComplaints.FilteredComplaints | src/pages/TrackComplaints.tsx:103-109 | an order-preserving subsequence holding exactly the complaints that pass the search and status tests, each as often as it occurs in the list |
| TrackComplaints.SortByIgnored | src/pages/TrackComplaints.tsx:14 | the sort choice never changes the list |
| TrackComplaints.NoFilterShowsAll | src/pages/TrackComplaints.tsx:103-109 | with empty search and status all, the whole list shows |
| TrackComplaints.AgreesWithDashboard | src/pages/TrackComplaints.tsx:103-109 | this list equals the dashboard's list with its location filter on all |
| TrackComplaints.DisplayedCounts | src/pages/TrackComplaints.tsx:196-220 | four counts, one per status in order, summing to the list length when every status is known |
| TrackComplaints.CountMatchesFilteredList | src/pages/TrackComplaints.tsx:196-220 | each count equals the length of the list filtered to that status |
| TrackComplaints.StatusText | src/pages/TrackComplaints.tsx:75-83 | each known status gets a fixed label; unknown statuses show as they are |
| TrackComplaints.StatusTextsAgreeExceptRegistered | src/pages/TrackComplaints.tsx:75-83 | this page and the dashboard label statuses alike iff the status is not registered |
| TrackComplaints.PriorityText | src/pages/TrackComplaints.tsx:85-92 | 1 is Low, 3 is High, every other value Medium, each iff |
| RegisterComplaint.CityOptions | src/pages/RegisterComplaint.tsx:208 | the city options are exactly the chosen state's entry of the city table, none for an unknown or empty state |
| RegisterComplaint.CitiesCoverStates | src/pages/RegisterComplaint.tsx:26-51 | the city table has exactly the listed states as keys, each with at least two cities |
| RegisterComplaint.IssueTypeChoicesMatchSchema | src/pages/RegisterComplaint.tsx:53-59 | the issue-type buttons offer exactly the schema's `issue_type` values in order |
| RegisterComplaint.CheckStep | src/pages/RegisterComplaint.tsx:61-89 | step 1 passes iff state and city are set; step 2 iff an issue type (and custom issue for others) and a non-blank description; the location error arises exactly when state or city is missing on step 1, the issue-type error exactly when the type (or the custom issue for others) is missing on step 2, the description error exactly when only the description is blank |
| RegisterComplaint.DescriptionLengthNotEnforced | src/pages/RegisterComplaint.tsx:81 | a one-letter description passes, a blank one fails, a custom issue of spaces passes |
| RegisterComplaint.RegistrationWizard.constructor | src/pages/RegisterComplaint.tsx:16-24 | the form starts on step 1 with every field empty |
| RegisterComplaint.RegistrationWizard.Next | src/pages/RegisterComplaint.tsx:61-91 | the step advances by exactly one iff its check passes; the form never changes; the step stays within 1..3 |
| RegisterComplaint.RegistrationWizard.Previous | src/pages/RegisterComplaint.tsx:364-371 | offered above step 1, goes back one step and keeps the form |
| RegisterComplaint.RegistrationWizard.SelectState | src/pages/RegisterComplaint.tsx:183 | choosing a state sets it and clears the city |
| RegisterComplaint.RegistrationWizard.SelectCity | src/pages/RegisterComplaint.tsx:199-208 | with a state chosen, a city from its options is set |
| RegisterComplaint.RegistrationWizard.SelectIssueType | src/pages/RegisterComplaint.tsx:242 | an issue-type button sets the issue type |
| RegisterComplaint.RegistrationWizard.EnterCustomIssue | src/pages/RegisterComplaint.tsx:256-263 | the custom-issue input, shown for others, sets the custom issue |
| RegisterComplaint.RegistrationWizard.EnterDescription | src/pages/RegisterComplaint.tsx:274 | the description box sets the description |
| RegisterComplaint.RegistrationWizard.UploadFiles | src/pages/RegisterComplaint.tsx:93-103 | a file selection is appended after the existing files; no selection changes nothing |
| Auth.Transition | src/pages/Auth.tsx:133-149 | every button leads to a different step, and the splash buttons are offered only on the splash |
| Auth.OnlyTwoBackEdges | src/pages/Auth.tsx:235 | a button leads to an earlier step iff it is Back to Phone Number on the code step or Back to Home on the login form |
| Auth.Take | src/pages/Auth.tsx:197 | `slice(0, n)` is the prefix of exactly min(n, length) elements: the first n, or the whole list when it is shorter |
| Auth.Sanitize | src/pages/Auth.tsx:197 | the sanitised input is all digits, at most n long, and the first n digits of what was typed |
| Auth.SanitizeIdempotent | src/pages/Auth.tsx:221 | sanitising twice is sanitising once |
| Auth.SanitizeKeepsDigits | src/pages/Auth.tsx:221 | a short enough run of digits is kept as typed |
| Auth.SanitizeIgnoresTail | src/pages/Auth.tsx:197 | characters typed after the first n digits change nothing |
| Auth.Digits | src/pages/Auth.tsx:61 | the decimal rendering of a number is non-empty digits without a leading zero |
| Auth.DigitsRoundTrip | src/pages/Auth.tsx:61 | reading back the rendering of a number gives the number |
| Auth.DigitsLength | src/pages/Auth.tsx:61 | a number with k decimal digits renders as k characters |
| Auth.GeneratedUsername | src/pages/Auth.tsx:61 | the username is "Rakshak" and five digits without a leading zero, denoting 10000 plus the random draw |
| Auth.GeneratedUsernameInjective | src/pages/Auth.tsx:61 | different draws give different usernames |
| Auth.AuthFlow.constructor | src/pages/Auth.tsx:14-21 | the page starts on the splash with empty fields as a citizen |
| Auth.AuthFlow.ChooseCitizen | src/pages/Auth.tsx:133-136 | the citizen button leads to the phone step as a citizen |
| Auth.AuthFlow.ChooseAdmin | src/pages/Auth.tsx:146-149 | the admin button leads to the login form as an administrator |
| Auth.AuthFlow.TypePhone | src/pages/Auth.tsx:197 | the phone field holds the sanitised input, at most ten digits |
| Auth.AuthFlow.SubmitPhone | src/pages/Auth.tsx:26-46 | on to the code step iff the number has ten digits; otherwise nothing changes |
| Auth.AuthFlow.TypeOtp | src/pages/Auth.tsx:221 | the code field holds the sanitised input, at most six digits |
| Auth.AuthFlow.SubmitOtp | src/pages/Auth.tsx:48-74 | on to the credentials step iff the code has six digits, with a generated username and the drawn password; otherwise nothing changes |
| Auth.AuthFlow.BackToPhone | src/pages/Auth.tsx:235 | back from the code step to the phone step, fields kept |
| Auth.AuthFlow.ContinueToLogin | src/pages/Auth.tsx:263 | on to the login form with the generated credentials filled in |
| Auth.AuthFlow.BackToHome | src/pages/Auth.tsx:311 | back from the login form to the splash, fields kept |
| Auth.AuthFlow.TypeUsername | src/pages/Auth.tsx:279 | sets the username only |
| Auth.AuthFlow.TypePassword | src/pages/Auth.tsx:291 | sets the password only |
| Auth.AuthFlow.Login | src/pages/Auth.tsx:76-96 | login is refused iff the username or the password is empty |
| Helpline.DirectoryFacts | src/pages/Helpline.tsx:14-105 | ten entries with distinct ids; the emergency numbers are ids 1, 2, 3 and 10 |
| Helpline.FilteredHelplines | src/pages/Helpline.tsx:107-111 | an order-preserving subsequence of the directory holding exactly the entries whose department or description contains the query ignoring case, or whose number contains it as typed, each as often as in the directory |
| Helpline.EmptyQueryKeepsAll | src/pages/Helpline.tsx:107-111 | an empty search lists the whole directory |
| Helpline.SearchCaseOnlyMattersForNumbers | src/pages/Helpline.tsx:107-111 | queries differing only in case keep the same entries, unless the contact number tells them apart |
| Helpline.EmergencyNumbers | src/pages/Helpline.tsx:113 | an order-preserving subsequence of exactly the emergency entries, each as often as in the filtered list |
| Helpline.DepartmentNumbers | src/pages/Helpline.tsx:114 | an order-preserving subsequence of exactly the non-emergency entries, each as often as in the filtered list |
| Helpline.SplitPartitions | src/pages/Helpline.tsx:113-114 | the two groups are disjoint and together hold the filtered list, entry for entry |

## Left out

- Rendering: JSX layout, icons, colour classes (`getStatusColor`, `getPriorityColor`) and titles carry no behaviour beyond the labels modelled above.
- Toasts, `navigate`, `window.location.href` and `tel:` links (Helpline's `handleCall`): side effects outside the page state.
- `setTimeout` delays and the `loading` flag: each handler's effect is one atomic step, and the disabled-while-loading state of the buttons is not modelled. On the sign-in page the phone and code inputs and "Back to Phone Number" stay usable while a timer runs, so the page can reach the code step with a number edited after it was sent, or jump from the phone step to the credentials step when the code timer fires; `Auth.AuthFlow`'s invariant (ten-digit number on the code and credentials steps, six-digit code on the credentials step) holds only for the atomic model and does not capture these interleavings.
- `Math.random`: the username draw is the parameter `suffix` in 0..89999; the password is a parameter, and its base-36 rendering is not modelled.
- Date parsing and `toLocaleDateString` (the tracking page shows timestamps as given); file sizes in megabytes.
- Text.Lower: lowercases ASCII letters only; JavaScript's Unicode case mapping is not modelled.
- Numbers: priorities are integers, latitude and longitude are reals; JavaScript floating point is not modelled.
- The `cities`, `states`, `feedback`, `helpline_numbers` and `profiles` tables and the generic type helpers over the schema: only the tables the pages' complaint logic relies on are modelled.
- The complaints on every page are fixed mock data in the source; the model takes the list as a parameter. Fields the logic never reads (reporter, dates, description) are left out of `Card`.
- `handleSubmit` of the registration form only shows a toast and navigates; the form data is not sent anywhere, so there is nothing to model.
- No operation changes a complaint's status: there is no assign, advance or resolve transition in the code, and none is invented here.
- The language select and the remember-me checkbox of the sign-in page: state that nothing reads.
- The dashboard and landing pages (Dashboard.tsx and Index.tsx) are not part of this model.
- Text.Includes: JavaScript `includes` on UTF-16 code units is modelled on characters.
- The disabled Send OTP and Verify OTP buttons (while the length is wrong) are not used as preconditions: the handlers' own length checks are modelled instead.

### Where the code and its labels disagree

- The description hint says "Minimum 20 characters", but `handleNext` only rejects a blank description (`RegisterComplaint.DescriptionLengthNotEnforced`); the custom issue is not trimmed at all.
- The feedback comment box is labelled optional, but `handleFeedbackSubmit` rejects a blank comment (`ComplaintTracking.FeedbackForm.Submit`).
- The complaint list keeps a sort choice that the list never uses (`TrackComplaints.SortByIgnored`).
- Assigning a complaint only validates and resets the dialog; the complaint keeps its status (`AdminDashboard.AssignDialog.Assign`).
- The tracking page labels priorities other than 1 and 2 as High, the complaint list labels those other than 1 and 3 as Medium (`ComplaintTracking.PriorityLabelsComparedWithList`).
