# Hostel allocation front-end: a Dafny model of its client-side rules

The system is a React front-end for a university hostel allocation service.
Students browse hostel blocks and rooms, apply for a room, and keep a profile
with their preferences and complaints. Administrators review and decide
applications, manage hostels, answer complaints and export reports. The
allocation ledger itself lives in a back end that is not part of this model.
The front end only sends requests to it.

What the model covers is the front end's own deterministic logic:

- **Room availability** (`RoomAvailability`): the "has space" filter, the
  floor read from a room number's digits, the free places and the status
  badge. Both application pages and the hostel browser apply the same
  "has space" predicate, each with a filter of its own. The component itself,
  as both application pages mount it, throws before drawing anything (see
  "## Findings").
- **Student application** (`StudentApplication`, current page; `LegacyApplication`,
  the older page):
  - the field checks run before an application is sent;
  - the translation of form labels into the back end's enumerations;
  - the trimming of empty trait entries;
  - the three-hobby checkbox limit, which the older page shares;
  - the submit handler, and the older page's ordered alert checks.
- **Admin dashboard** (`AdminDashboard`):
  - the allocations query for a status tab;
  - row normalisation;
  - the summary counters read from a response of unknown shape
    (`pickSummary`, a loop proved against a recursive specification);
  - both search filters;
  - the list updates made by approving and rejecting.
- **Hostel management** (`ManageHostels`): the hostel form's checks, the
  hostel sent, and the rooms collected in the form.
- **Hostel browser** (`HostelBrowser`): the status and search filters, the
  card class and the select button.
- **Prototype hostel page** (`PrototypeHostels`): the generated rooms, with
  occupancy a nondeterministic choice standing in for `Math.random`. Also the
  "add room" action and the block counters it keeps consistent.
- **Student profile** (`StudentProfile`): the profile and preference draft
  built from the server's answer, and the hobbies text editor (proved to
  round-trip). Also the cleanliness meter, the complaint list and the
  edit/save/cancel cycle.
- **Admin complaints and reports** (`AdminComplaints`, `AdminReports`): the
  complaint list handling, and the export file name and history.

Shared modules hold the JavaScript behaviour the pages rely on:

- `Outcomes`: the outcome of an awaited call.
- `JsValues`: JSON-shaped values, truthiness, `||`, `??`, `Number()` and
  `String()`.
- `Text`: lower-casing, trimming, split/join, decimal digits and `parseInt`.
- `Seqs`: order-preserving filters.

How the pages are represented:

- Each page's React state is a class whose fields the handlers update.
- Each awaited API call becomes a parameter of type `ApiResult`. It is either
  the response body (`Ok`) or a rejection carrying the server's message
  (`Failed`).
- The request a handler sends is returned by the method.
- Clock readings and `localStorage` values are parameters.

## Model

| member | source | states |
|---|---|---|
| RoomAvailability.AvailableRooms | src/component/RoomAvailability.jsx:6 | exactly the rooms with occupied < capacity, in original order, each kept as many times as it occurs in the input; each has at least one free place; all rooms when all have space |
| RoomAvailability.FloorFromNumber | src/component/RoomAvailability.jsx:22 | the floor is NaN exactly when the number has no digit; otherwise it is the ceiling of a tenth of the value of its digits |
| RoomAvailability.CeilTenth | src/component/RoomAvailability.jsx:22 | Math.ceil(n / 10) characterised as the unique f with 10(f-1) < n <= 10f; positive for positive n |
| RoomAvailability.StatusLabel | src/component/RoomAvailability.jsx:16-17 | "Full" if and only if occupied equals capacity, otherwise "Available" |
| RoomAvailability.RenderedCards | src/component/RoomAvailability.jsx:6-24 | one card per available room in order; every card shows at least one free place and the "Available" badge |
| RoomAvailability.RenderWidget | src/component/RoomAvailability.jsx:4-6 | a TypeError exactly when the `rooms` prop is absent; otherwise the cards of the rooms with space |
| RoomAvailability.MountedAsWritten | src/pages/Allocation.jsx:120 | mounted with only `occupied` and `capacity`, as both application pages do, the widget always throws |
| RoomAvailability.MountedForRoom | src/component/RoomAvailability.jsx:4-24 | given the card's own room, the widget renders; a room with space gets exactly its own card, "Available" with a free place |
| RoomAvailability.MountedCardsRender | src/pages/studentPage/Allocation.jsx:253 | for every room the page lists as available, the corrected mount renders its card and the mount as written throws |
| StudentApplication.ValidateForm | src/pages/studentPage/Allocation.jsx:127-161 | the error map filled check by check equals the specification map of failing checks with their final messages |
| StudentApplication.ErrorsAfterChecks | src/pages/studentPage/Allocation.jsx:127-161 | after the first n checks a key is present exactly when its check is among them and fails, with its final message |
| StudentApplication.ErrorsAfterAllChecks | src/pages/studentPage/Allocation.jsx:127-161 | after all nine checks the map is exactly the map of failing checks |
| StudentApplication.KeyAt | src/pages/studentPage/Allocation.jsx:131-158 | the check at each position of the validator has that position |
| StudentApplication.KeyAtRank | src/pages/studentPage/Allocation.jsx:131-158 | each field check has its own position |
| StudentApplication.ValidationErrors | src/pages/studentPage/Allocation.jsx:132-150 | matric error iff not 8 digits, "Must be 8 digits" when empty; phone and emergency-contact errors iff not 11 digits; hobbies error iff none; no submit error; empty map iff the form is acceptable |
| StudentApplication.MapSleepSchedule | src/pages/studentPage/Allocation.jsx:211 | "" iff the label is empty; the two known labels map to early/late; any other label maps to flexible |
| StudentApplication.MapStudyHabits | src/pages/studentPage/Allocation.jsx:212 | "" iff empty; In Room gives quiet, Study Groups gives group, any other label gives mixed |
| StudentApplication.MapCleanliness | src/pages/studentPage/Allocation.jsx:213-218 | 3 for empty, 5 for Very Organized, 3 for Moderately Tidy, 2 otherwise; always in 2..5 |
| StudentApplication.MapSocialPreference | src/pages/studentPage/Allocation.jsx:219 | "" iff empty; extrovert and balanced for the two known labels, introvert otherwise |
| StudentApplication.MapNoise | src/pages/studentPage/Allocation.jsx:220 | "" iff empty; quiet and tolerant for the two known labels, noisy otherwise |
| StudentApplication.MapVisitor | src/pages/studentPage/Allocation.jsx:221 | "" iff empty; rarely and sometimes for the two known labels, often otherwise |
| StudentApplication.CompactTraits | src/pages/studentPage/Allocation.jsx:198 | keeps exactly the entries whose value is not "", undefined or an empty array, unchanged and in order |
| StudentApplication.CleanlinessAlwaysSent | src/pages/studentPage/Allocation.jsx:188-198 | the numeric cleanliness level always survives compaction |
| StudentApplication.HobbiesSentIffChosen | src/pages/studentPage/Allocation.jsx:188-198 | a hobbies entry is sent if and only if at least one hobby was chosen |
| StudentApplication.ToggleHobby | src/pages/studentPage/Allocation.jsx:504-506 | checking appends and keeps at most the first three; unchecking removes exactly that hobby and keeps the rest in order |
| StudentApplication.HobbyClick | src/pages/studentPage/Allocation.jsx:502-516 | a click on a box that is not disabled flips only that hobby's membership and keeps the list within three distinct hobbies |
| StudentApplication.ApplicationPage.constructor | src/pages/studentPage/Allocation.jsx:13-39 | no room selected, form hidden, every field empty, no errors |
| StudentApplication.ApplicationPage.ApplyForRoom | src/pages/studentPage/Allocation.jsx:260-263 | selects the room and shows the form; nothing else changes |
| StudentApplication.ApplicationPage.OnHobbyChange | src/pages/studentPage/Allocation.jsx:503-513 | only the hobbies change, by ToggleHobby; a list of at most three stays so |
| StudentApplication.ApplicationPage.HandleSubmit | src/pages/studentPage/Allocation.jsx:163-208 | a request is made iff the form passes and a room with an id is selected; otherwise the validation errors or "No room selected"; on success navigation to /profile, on failure the submit error |
| StudentApplication.ApplicationPage.SendApplication | src/pages/studentPage/Allocation.jsx:174-207 | sends profile, compacted traits and room id; navigates on success, records the error otherwise; submitting flag cleared |
| LegacyApplication.FindHostel | src/pages/Allocation.jsx:59 | a found block is listed with that id; none iff no block has the id |
| LegacyApplication.FindHostelFirst | src/pages/Allocation.jsx:59 | the block found is the first listed with that id |
| LegacyApplication.RoomsFor | src/pages/Allocation.jsx:58-60 | no rooms without a selection, for a non-numeric value or an unknown id; otherwise that block's rooms |
| LegacyApplication.AvailableRoomsFor | src/pages/Allocation.jsx:63 | exactly the selected block's rooms with space, in order, each with a free place |
| LegacyApplication.FloorAsWritten | src/pages/Allocation.jsx:123 | parseInt of the room number as written: NaN whenever the number starts with a letter |
| LegacyApplication.LetterNumberIsNaN | src/pages/Allocation.jsx:123 | a room number starting with a capital letter has no floor as written |
| LegacyApplication.FloorAsWrittenIsNaN | src/pages/Allocation.jsx:49-50 | every room of the page's own data shows a NaN floor as written |
| LegacyApplication.Floor | src/pages/Allocation.jsx:123 | corrected floor: defined exactly when the number holds a digit, and the ceiling of a tenth of its digits' value |
| LegacyApplication.FloorDefinedForData | src/pages/Allocation.jsx:49-50 | with the corrected floor every room of the page's data has one |
| LegacyApplication.MissingFields | src/pages/Allocation.jsx:69-70 | exactly the empty required fields, in declared order |
| LegacyApplication.CheckSubmission | src/pages/Allocation.jsx:72-89 | accepted iff nothing is missing and matric and both phones match; otherwise the alert of the first failing check in order |
| LegacyApplication.EmptyFieldReportedAsMissing | src/pages/Allocation.jsx:69-75 | an empty matric or phone number is reported as a missing field, never as malformed |
| AdminDashboard.StatusParam | src/pages/adminFolder/Admin-pages/Dashboard.jsx:25-31 | a status is sent iff the lower-cased tab is approved, rejected or pending, and it is that lower-cased name |
| AdminDashboard.AllocationsQuery | src/pages/adminFolder/Admin-pages/Dashboard.jsx:35-37 | no request on the Unallocated tab; otherwise limit 100, page 1, and a status key exactly when StatusParam gives one |
| AdminDashboard.RowOf | src/pages/adminFolder/Admin-pages/Dashboard.jsx:43-53 | id is id, else _id; the student label is the full name, else matric number, else e-mail, else "Student"; the room label is the details' or the room's number, else the room, else "-"; the session is kept or "-"; the student id is the student's _id, else its id, else the record's studentId, else null; the room id is the details' _id, else the room's _id, else the room itself, else null, and it is set exactly when the record names a room; the status is the status as text or "" |
| AdminDashboard.RowsOf | src/pages/adminFolder/Admin-pages/Dashboard.jsx:42-53 | one row per item of the data array, in order; none when it is not an array |
| AdminDashboard.FirstNumberIsFirstHit | src/pages/adminFolder/Admin-pages/Dashboard.jsx:150-165 | the counter is the number at the first key path reaching a number; earlier non-numeric hits are skipped |
| AdminDashboard.NoHitGivesZero | src/pages/adminFolder/Admin-pages/Dashboard.jsx:164 | when no key path reaches a number the counter is 0 |
| AdminDashboard.PickSummary | src/pages/adminFolder/Admin-pages/Dashboard.jsx:150-165 | the nested cursor loops compute the first-hit specification |
| AdminDashboard.SummaryOf | src/pages/adminFolder/Admin-pages/Dashboard.jsx:40 | the body's data when it is neither null nor undefined; otherwise the body itself, or null when the body is null or undefined; never undefined |
| AdminDashboard.FilteredAllocations | src/pages/adminFolder/Admin-pages/Dashboard.jsx:168-178 | all rows for a blank query; otherwise exactly the rows whose student, room or session contains it, in order, each kept as many times as it occurs in the input |
| AdminDashboard.FilteredUnallocated | src/pages/adminFolder/Admin-pages/Dashboard.jsx:181-196 | exactly the students whose status is pending, none or blank and who match the search, in order |
| AdminDashboard.VisibleRows | src/pages/adminFolder/Admin-pages/Dashboard.jsx:330-338 | all rows on "all"; otherwise exactly the rows whose status equals the tab ignoring case, in order, each kept as many times as it occurs in the input |
| AdminDashboard.RoomsLeft | src/pages/adminFolder/Admin-pages/Dashboard.jsx:452 | never negative; either 0 or capacity minus occupied, whichever is larger |
| AdminDashboard.SetStatus | src/pages/adminFolder/Admin-pages/Dashboard.jsx:207 | same length; only rows with the id get the new status |
| AdminDashboard.WithoutRow | src/pages/adminFolder/Admin-pages/Dashboard.jsx:208 | exactly the rows with another id, in order, each kept as many times as it occurs in the input |
| AdminDashboard.DropAfterSetStatus | src/pages/adminFolder/Admin-pages/Dashboard.jsx:206-210 | dropping the target after changing its status is the same as just dropping it |
| AdminDashboard.DecideOnlyTarget | src/pages/adminFolder/Admin-pages/Dashboard.jsx:249-253 | on the Pending tab only the target disappears; on other tabs every row keeps its place and only the target's status changes |
| AdminDashboard.WithoutStudent | src/pages/adminFolder/Admin-pages/Dashboard.jsx:137 | exactly the students with another key, in order, each kept as many times as it occurs in the input |
| AdminDashboard.FindRow | src/pages/adminFolder/Admin-pages/Dashboard.jsx:202 | a found row is listed with that id; none iff no row has it |
| AdminDashboard.DashboardPage.constructor | src/pages/adminFolder/Admin-pages/Dashboard.jsx:10-18 | empty lists, Pending tab, empty search, closed modal |
| AdminDashboard.DashboardPage.Load | src/pages/adminFolder/Admin-pages/Dashboard.jsx:21-65 | sends the tab's query; on success sets summary and rows (none on Unallocated); any failure raises the alert and keeps the data |
| AdminDashboard.DashboardPage.OpenApproveModal | src/pages/adminFolder/Admin-pages/Dashboard.jsx:91-109 | opens the modal for the target with the hostels listed; a failure or a missing target raises the hostel alert |
| AdminDashboard.DashboardPage.HandleApprove | src/pages/adminFolder/Admin-pages/Dashboard.jsx:200-220 | a status update is sent iff the row has a room; on success only the target changes (or leaves on Pending); the summary is never changed here (its refresh after a decision is not modelled); otherwise no update, rows unchanged, and the approval modal opens for that row with the listed hostels, or the hostel-loading alert appears when the row is missing or the hostels call fails |
| AdminDashboard.DashboardPage.HandleReject | src/pages/adminFolder/Admin-pages/Dashboard.jsx:246-259 | sends the rejection; on success only the target changes or leaves on Pending; on failure rows unchanged |
| AdminDashboard.DashboardPage.HandleApproveUnallocated | src/pages/adminFolder/Admin-pages/Dashboard.jsx:222-225 | opens the modal with no allocation id, the student's key and name and the listed hostels, keeping the alert; a failed hostels call keeps the modal and shows "Failed to load hostels" or the server's message; lists, filter, search and summary unchanged |
| AdminDashboard.DashboardPage.HandleRejectUnallocated | src/pages/adminFolder/Admin-pages/Dashboard.jsx:227-244 | rejects only when an allocation id is found, else the "No pending allocation" alert; on success only that student leaves the list and the "Rejected allocation for" alert shows; a failed lookup or update keeps the list and shows "Failed to reject allocation" or the server's message |
| AdminDashboard.DashboardPage.SubmitApproval | src/pages/adminFolder/Admin-pages/Dashboard.jsx:123-147 | refuses without student or room; on success drops the row with the allocation id, drops the student only without one, closes the modal; filter, search and summary unchanged (the summary refresh is not modelled) |
| ManageHostels.ValidateHostel | src/pages/adminFolder/Admin-pages/ManageHostels.jsx:48-56 | the error map filled check by check is exactly the failing fields, each with its message |
| ManageHostels.HostelErrorsAt | src/pages/adminFolder/Admin-pages/ManageHostels.jsx:48-56 | a field has an error iff its check fails, with that field's message |
| ManageHostels.HostelErrorsExact | src/pages/adminFolder/Admin-pages/ManageHostels.jsx:48-56 | errors exactly on the failing fields; an empty map iff name, type and description are set, capacity is at least 1 and maintenance is not negative |
| ManageHostels.HostelPayload | src/pages/adminFolder/Admin-pages/ManageHostels.jsx:66-73 | the hostel sent is the form itself: name, type, capacity, description, maintenance and rooms; it passes the checks whenever the form does |
| ManageHostels.CreatedHostel | src/pages/adminFolder/Admin-pages/ManageHostels.jsx:75 | the response's data when truthy, else the body |
| ManageHostels.HostelManager.constructor | src/pages/adminFolder/Admin-pages/ManageHostels.jsx:8-26 | no hostels, loading, both drafts at their defaults |
| ManageHostels.HostelManager.FetchHostels | src/pages/adminFolder/Admin-pages/ManageHostels.jsx:29-44 | the response's list, or the error text; loading ends |
| ManageHostels.HostelManager.HandleAddHostel | src/pages/adminFolder/Admin-pages/ManageHostels.jsx:58-90 | sends iff the form passes; the hostel sent passes the checks; on success the created hostel is appended after the others and both drafts reset |
| ManageHostels.HostelManager.HandleAddRoom | src/pages/adminFolder/Admin-pages/ManageHostels.jsx:92-100 | an incomplete draft changes nothing; otherwise the room is appended after the earlier rooms and the draft is cleared |
| HostelBrowser.FilteredRooms | src/pages/sharedPage/hostel.jsx:79-94 | exactly the rooms matching the status filter and the search, in order; "available" rooms have space, "full" rooms are at capacity |
| HostelBrowser.EmptyTermMatches | src/pages/sharedPage/hostel.jsx:86-93 | an empty search term matches every room |
| HostelBrowser.UnsearchedFilters | src/pages/sharedPage/hostel.jsx:81-85 | without a search, "available" lists what the availability widget lists and any value other than available/full lists every room |
| HostelBrowser.CardClass | src/pages/sharedPage/hostel.jsx:193 | the card is classed full iff the room is at capacity |
| HostelBrowser.ShowsSelect | src/pages/sharedPage/hostel.jsx:211 | the select button shows iff the room has space, so never on a full card |
| HostelBrowser.FetchRooms | src/pages/sharedPage/hostel.jsx:49-57 | the data array of the response, else no rooms; a failed call gives no rooms and the error text |
| PrototypeHostels.InitialCountsAdd | src/pages/hostel.jsx:14-55 | every initial block's occupied and available rooms add up to its total |
| PrototypeHostels.FindProto | src/pages/hostel.jsx:59 | a found block is listed with that id; none iff no block has it |
| PrototypeHostels.RoomNumberLayout | src/pages/hostel.jsx:68 | a room number is the block id followed by at least two digits whose value is the index |
| PrototypeHostels.RoomNumbersDistinct | src/pages/hostel.jsx:68 | different indices give different room numbers |
| PrototypeHostels.CapacityFor | src/pages/hostel.jsx:69 | 2 iff the index is a multiple of 3, else 4 |
| PrototypeHostels.TypeFor | src/pages/hostel.jsx:71 | Premium iff the index is a multiple of 5, else Standard |
| PrototypeHostels.DrawRoom | src/pages/hostel.jsx:66-73 | the room for an index follows the layout, with occupancy anywhere from 0 to capacity |
| PrototypeHostels.GeneratedPush | src/pages/hostel.jsx:65-74 | pushing the next index's room keeps the list laid out by index |
| PrototypeHostels.GenerateRooms | src/pages/hostel.jsx:57-80 | nothing for an unknown block; otherwise totalRooms rooms, room k laid out for index k+1 |
| PrototypeHostels.BumpOne | src/pages/hostel.jsx:101-110 | the target block gains one room and one available room; other blocks are kept |
| PrototypeHostels.BumpHostel | src/pages/hostel.jsx:101-110 | every block passed through BumpOne, in order |
| PrototypeHostels.BumpHostelKeepsCounts | src/pages/hostel.jsx:101-110 | adding a room keeps every block's counts adding up |
| PrototypeHostels.BumpHostelFind | src/pages/hostel.jsx:101-110 | the block found under the id afterwards is the old one bumped; with no such block nothing changes |
| PrototypeHostels.BumpHostelSplit | src/pages/hostel.jsx:101-110 | the update over a non-empty list is the first block bumped, then the rest |
| PrototypeHostels.AddedRoomIsFresh | src/pages/hostel.jsx:87-96 | the added room's number differs from every generated room of the block |
| PrototypeHostels.AddedRoomFitsLayout | src/pages/hostel.jsx:89-96 | the added room matches the generator's layout iff its index is a multiple of neither 3 nor 5 |
| PrototypeHostels.PrototypeHostelPage.constructor | src/pages/hostel.jsx:7-55 | the four initial blocks, counts adding up, no rooms, nothing selected |
| PrototypeHostels.PrototypeHostelPage.HandleHostelClick | src/pages/hostel.jsx:81-83 | selects the block; nothing else changes |
| PrototypeHostels.PrototypeHostelPage.AppendAddedRoom | src/pages/hostel.jsx:98 | appends the added room after the existing ones |
| PrototypeHostels.PrototypeHostelPage.HandleAddRoom | src/pages/hostel.jsx:85-113 | appends the next room, bumps only the target block's counters and closes the modal; counts keep adding up; unknown id changes nothing |
| StudentProfile.AllocationStatus | src/pages/studentPage/profile.jsx:46 | approved shows as Allocated, any other set status as itself, no status as Pending; never empty |
| StudentProfile.ApplicationDate | src/pages/studentPage/profile.jsx:50 | at most ten characters, a prefix of the timestamp's text; "" without a timestamp |
| StudentProfile.With | src/pages/studentPage/profile.jsx:132-137 | the named field reads the new value, every other field reads as before |
| StudentProfile.ProfileOfFilled | src/pages/studentPage/profile.jsx:36-58 | every placeholder field is filled; status, date and saved hobbies follow their rules |
| StudentProfile.TrimmedPieces | src/pages/studentPage/profile.jsx:458 | one trimmed piece per comma-separated part |
| StudentProfile.PieceIsWord | src/pages/studentPage/profile.jsx:458 | a non-empty trimmed piece is a trimmed word without a comma |
| StudentProfile.HobbyWords | src/pages/studentPage/profile.jsx:458 | every word typed is non-empty, trimmed and comma-free; no more words than parts |
| StudentProfile.ParseHobbies | src/pages/studentPage/profile.jsx:458 | every hobby read from the text is a hobby word |
| StudentProfile.JoinSpaced | src/pages/studentPage/profile.jsx:458 | joining with ", " equals joining the spaced pieces with "," |
| StudentProfile.SplitSpaced | src/pages/studentPage/profile.jsx:458 | splitting comma-free words joined with ", " gives the spaced words |
| StudentProfile.TrimSpaced | src/pages/studentPage/profile.jsx:458 | trimming the spaced pieces of trimmed words gives the words back |
| StudentProfile.WordsOfJoined | src/pages/studentPage/profile.jsx:458 | reading back hobby words joined with ", " gives the words |
| StudentProfile.HobbiesRoundTrip | src/pages/studentPage/profile.jsx:458 | reading back the text shown for a list of hobby words gives the same list |
| StudentProfile.ParseHobbiesStable | src/pages/studentPage/profile.jsx:458 | re-reading the text shown for a parsed list changes nothing |
| StudentProfile.ShownHobbyTags | src/pages/studentPage/profile.jsx:397 | the first three hobbies at most, as a prefix of the list |
| StudentProfile.CleanlinessDefault | src/pages/studentPage/profile.jsx:64 | 3 only when the level is null or undefined; a stored number, 0 included, is kept |
| StudentProfile.HobbiesFrom | src/pages/studentPage/profile.jsx:67-71 | an array as it is, a string parsed like the hobbies input, anything else none |
| StudentProfile.DraftFromServer | src/pages/studentPage/profile.jsx:60-74 | the draft's hobbies follow HobbiesFrom and its cleanliness follows CleanlinessDefault |
| StudentProfile.MeterWidth | src/pages/studentPage/profile.jsx:409 | always within 0..100; 20 per level for levels 0..5; 0 for a non-number or non-positive level; 100 from level 5 up |
| StudentProfile.MeterMonotone | src/pages/studentPage/profile.jsx:409 | a higher level never gives a narrower meter |
| StudentProfile.WithSavedTraits | src/pages/studentPage/profile.jsx:176-182 | only the personality changes; its traits become the saved hobbies and its other properties are kept |
| StudentProfile.ComplaintOf | src/pages/studentPage/profile.jsx:76 | id is _id, else id; a set type and status are kept, otherwise Other and Open; the message stands in for a missing description; the timestamp is kept exactly when set |
| StudentProfile.ComplaintsOf | src/pages/studentPage/profile.jsx:75-76 | one complaint view per listed item, in order |
| StudentProfile.ProfilePage.constructor | src/pages/studentPage/profile.jsx:10-20 | loading, no profile, default draft, no complaints, closed alert |
| StudentProfile.ProfilePage.ShowLoaded | src/pages/studentPage/profile.jsx:36-83 | sets profile, draft and complaints; the editor opens unless already shown |
| StudentProfile.ProfilePage.Load | src/pages/studentPage/profile.jsx:23-91 | nothing without a student id; both calls succeeding set the profile and draft from the body's `personal` and `allocation`, and the complaints; a failure raises the error alert; loading ends |
| StudentProfile.ProfilePage.HandleEdit | src/pages/studentPage/profile.jsx:93-103 | editing starts from the profile and opens the preference editor |
| StudentProfile.ProfilePage.HandleChange | src/pages/studentPage/profile.jsx:132-137 | only the named field of the edited copy changes |
| StudentProfile.ProfilePage.HandleCancel | src/pages/studentPage/profile.jsx:125-130 | edits dropped, both editors closed |
| StudentProfile.ProfilePage.HandleSave | src/pages/studentPage/profile.jsx:105-123 | sends name, phone and level iff there is a student id; on success the edited copy becomes the profile |
| StudentProfile.ProfilePage.OnHobbiesInput | src/pages/studentPage/profile.jsx:458 | the draft's hobbies become the words typed; nothing else changes |
| StudentProfile.ProfilePage.SavePersonality | src/pages/studentPage/profile.jsx:170-197 | sends the draft; on success the profile shows the saved hobbies, the editor closes and is marked shown |
| StudentProfile.ProfilePage.HandleSubmitComplaint | src/pages/studentPage/profile.jsx:199-220 | refused without type or description; without a student id nothing is sent and the generic failure alert shows; on success the list is replaced and the form cleared; a failed submission or re-listing shows the error and keeps the list and the form |
| AdminComplaints.ComplaintItems | src/pages/adminFolder/Admin-pages/Complaints.jsx:20-26 | the items array, else the data array, else the body when an array, else none |
| AdminComplaints.OptionLabel | src/pages/adminFolder/Admin-pages/Complaints.jsx:46 | the name, then the matric number (or the e-mail without one) in parentheses |
| AdminComplaints.StudentOptions | src/pages/adminFolder/Admin-pages/Complaints.jsx:45-46 | one option per student of the items (else data) array, in order, with its id and label |
| AdminComplaints.WithoutComplaint | src/pages/adminFolder/Admin-pages/Complaints.jsx:56 | exactly the complaints with another key, in order, each kept as many times as it occurs in the input; all of them when none has the key |
| AdminComplaints.ResolveRemovesOne | src/pages/adminFolder/Admin-pages/Complaints.jsx:56 | with distinct keys, resolving a listed complaint removes exactly one item |
| AdminComplaints.ComplaintsPage.constructor | src/pages/adminFolder/Admin-pages/Complaints.jsx:6-12 | empty list, no student, empty query, no drafts |
| AdminComplaints.ComplaintsPage.FetchComplaints | src/pages/adminFolder/Admin-pages/Complaints.jsx:14-33 | nothing without a student id; otherwise the response's complaints or the error text |
| AdminComplaints.ComplaintsPage.Search | src/pages/adminFolder/Admin-pages/Complaints.jsx:41-48 | asks only for a query of two characters or more, else clears the options; a failed search changes nothing |
| AdminComplaints.ComplaintsPage.SelectOption | src/pages/adminFolder/Admin-pages/Complaints.jsx:94 | selects the student, shows the label, closes the list |
| AdminComplaints.ComplaintsPage.HandleResolve | src/pages/adminFolder/Admin-pages/Complaints.jsx:53-60 | on success the complaint leaves the list and the rest keep their order |
| AdminComplaints.ComplaintsPage.HandleRespond | src/pages/adminFolder/Admin-pages/Complaints.jsx:62-73 | a missing or blank draft is refused with no request; on success only that complaint's draft is cleared and, with a student selected, a successful refresh replaces the items and clears the error while a failed one keeps them and shows the loading error; a failed answer keeps the draft and shows its error |
| AdminComplaints.ComplaintsPage.ClearDraftAndRefresh | src/pages/adminFolder/Admin-pages/Complaints.jsx:67-69 | empties that draft; with a student selected the refreshed items replace the list and the error clears, or a failed refresh keeps the list and shows "Error loading complaints" or the server's message; without one nothing else changes |
| AdminReports.DashStamp | src/pages/adminFolder/Admin-pages/Reports.jsx:19 | same length; every ':' and 'T' becomes '-', other characters stay |
| AdminReports.ExportFilename | src/pages/adminFolder/Admin-pages/Reports.jsx:19 | type + "_report_", then the dashed first 19 characters of the timestamp, then ".csv" |
| AdminReports.IsoStamp | src/pages/adminFolder/Admin-pages/Reports.jsx:19 | for an ISO timestamp the stamp keeps date and time digits with '-' at every separator |
| AdminReports.ReportsPage.constructor | src/pages/adminFolder/Admin-pages/Reports.jsx:9-10 | allocations selected, empty history |
| AdminReports.ReportsPage.SetExportType | src/pages/adminFolder/Admin-pages/Reports.jsx:61 | selects the type; the history is kept |
| AdminReports.ReportsPage.HandleExport | src/pages/adminFolder/Admin-pages/Reports.jsx:12-47 | the history grows by one record in front, earlier records unchanged; Success with the file name, or Failed with '-' and the alert |
| JsValues.ListOf | src/pages/adminFolder/Admin-pages/ManageHostels.jsx:33-37 | the body's data array, else the body when an array, else none |

## Findings

| source | as written | input that shows it | evidently intended | confidence | as-written member | corrected member |
|---|---|---|---|---|---|---|
| src/pages/Allocation.jsx:123 | the floor is `Math.ceil(parseInt(room.number) / 10)`, and parseInt stops at the first non-digit | room "A101" of the page's own data (src/pages/Allocation.jsx:49) gives parseInt NaN, so the card's floor line would read "Floor: NaN"; the same card's widget (line 120, next row) throws first, so the floor is reached only once that is fixed | read the floor from the digits of the number, as src/component/RoomAvailability.jsx:22 does | not executed | LegacyApplication.FloorAsWritten, LegacyApplication.FloorAsWrittenIsNaN | LegacyApplication.Floor, LegacyApplication.FloorDefinedForData |
| src/pages/Allocation.jsx:120 | both application pages mount `<RoomAvailability occupied={room.occupied} capacity={room.capacity} />` on every available-room card (also src/pages/studentPage/Allocation.jsx:253), but the component reads only a `rooms` prop and calls `rooms.filter` (src/component/RoomAvailability.jsx:4-6) | any hostel with one room that has space: the first card mounts the widget with `rooms` undefined, `rooms.filter` throws a TypeError, and with no error boundary the page stops rendering | pass the card's room as the widget's list, so it draws that room's card | not executed | RoomAvailability.MountedAsWritten | RoomAvailability.MountedForRoom, RoomAvailability.MountedCardsRender |

## Left out

- The back end. Allocation rules, occupancy bookkeeping and concurrency live on the server. The client only sends requests.
- src/utils/api.js and the admin API service are not part of this model. They are HTTP wrappers with token injection and a 401 redirect. Each call is a parameter holding the response body or the rejection's server message.
- Rendering, CSS, routing and the authentication screens. The only view conditions modelled are the card, badge, button, meter and tag rules listed above.
- Timers and async lifecycle. This covers the alert auto-close, the 250 ms debounce of the student search and its cancellation, the `mounted` guards, and the `loading` flags of the pages that only render them.
- Concurrency and call ordering:
  - The `Promise.all` calls are modelled as two results, both available together.
  - Un-awaited calls run to completion in place. These are `openApproveModal` in `handleApprove` and `fetchComplaints` in `handleRespond`.
- Browser APIs, each passed in as a parameter or omitted:
  - `Date` is passed in as ISO and local text.
  - The `localStorage` flag and the student id are passed in.
  - The Blob/URL download and avatar upload (`handleAvatarChange`, src/pages/studentPage/profile.jsx:139-155) are omitted.
  - Complaint dates are kept as the raw timestamp, not formatted through `new Date(...).toISOString()`.
- Floating point. Numbers are integers.
  - `NaN` from `Number()` or `parseInt` is `None`.
  - `Number()` of arrays and objects is taken as `NaN`.
  - `parseInt` reads decimal digits only, with no hex prefix.
  - Lower-casing is ASCII only.
- AdminDashboard: these are not modelled:
  - the unallocated-students load (src/pages/adminFolder/Admin-pages/Dashboard.jsx:68-88);
  - the hostel change in the approval modal (111-121);
  - the summary refresh after a decision (142, 212, 240, 255);
  - the `appliedAt` field of a row (52);
  - the paging meta (54-55).
  Only the approval modal's room count (`RoomsLeft`) is modelled from that modal.
- AdminDashboard.PickSummary is proved equal to the first-hit specification. The four key lists of the summary cards are constants and are not proved about individually.
- StudentApplication: these are not modelled:
  - the hostel, department and room loading effects (src/pages/studentPage/Allocation.jsx:58-114);
  - the text inputs that clear a field's error as it is typed;
  - the Back button.
- RoomAvailability.AvailableRooms: rooms carry numeric occupied and capacity, so the `Number(...)` coercions of the student page's filter (src/pages/studentPage/Allocation.jsx:124) are the identity here; string-valued counts are not modelled.
- ManageHostels.HostelPayload: the form fields are numbers, so `Number(capacity)` and `Number(maintenance) || 0` add nothing and the payload is the form. A capacity or maintenance typed as text, and the `NaN` that `Number` would give for it, are not modelled.
- PrototypeHostels.PrototypeHostelPage.HandleAddRoom: for an unknown id the handler throws before any update, so the model leaves the state unchanged.
- PrototypeHostels.GenerateRooms: a negative `totalRooms` gives no rooms, as the loop does.
- HostelBrowser.FetchRooms: the error text falls back to the server's message, then "Error loading rooms". It skips the rejection's own `error.message`, which the model does not carry.
- HostelBrowser: `handleHostelClick` (src/pages/sharedPage/hostel.jsx:60-68) only stores what `fetchRooms` returns and is not modelled separately. Raw room objects are not decoded into `Room` values.
- StudentProfile: the profile record's deep clone on edit is a plain copy. Values are immutable here.
- Null list items. A `null` item in a listed response makes the page's property access throw inside its `try`, which ends in the error alert (src/pages/studentPage/profile.jsx:76 and 212, src/pages/adminFolder/Admin-pages/Dashboard.jsx:43, src/pages/adminFolder/Admin-pages/Complaints.jsx:46). StudentProfile.ComplaintOf, AdminDashboard.RowOf and AdminComplaints.StudentOptions instead build a record of defaults from it.
- AdminComplaints.ComplaintsPage.Search: strings are sequences of characters, so `query.length < 2` counts characters. JavaScript counts UTF-16 code units, so one character outside the Basic Multilingual Plane already starts a search there; the model refuses it.
- AdminDashboard: ids are compared by value. `===` (src/pages/adminFolder/Admin-pages/Dashboard.jsx:207, 250) is reference equality on objects, so two equal object ids that are different objects would not match there.
- AdminDashboard.PickSummary: only objects have own properties. `hasOwnProperty` on a string or an array also holds for `length` and indices; no summary key path names them, so the difference is never reached.
