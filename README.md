# Band booking site and mobile admin: a Dafny model

The system is a booking site for a band, plus a companion mobile admin app.

On the public web site:

- visitors browse a calendar of taken dates;
- they send booking requests through a validated form;
- an administrator logs in on an admin sub-domain;
- the administrator approves, rejects, edits, deletes and adds bookings, and changes the admin password.

The mobile app offers the same dashboard, calendar and password change over the device's storage.

Both apps keep bookings in two JSON lists in local storage: `band_bookings` and `band_proposals`. Four pre-existing engagements (the seeds) are constants of the code, not stored records:

- Every read merges the seeds in front of the stored list and keeps the first record per id, so the seeds always win.
- Every write strips records that carry a seed id.

Three behaviours of the code that a reader may not expect:

- **Updating a seed.** An update to a pre-existing booking writes a copy that the merge then hides. So the update is never visible (`Storage.UpdateOfSeedIsInvisible`). It does not show the updated record.
- **Malformed stored value.** On the web site, an unparsable stored value throws. It is not read as an empty list. This path is left out below.
- **Approving.** The approve action goes straight from pending to booked. Nothing in either app ever produces `approved`.

Each source file is one module:

| module | source |
|---|---|
| `Types` | records, the shallow merge `{...b, ...p}` and the edit form |
| `Storage` | the web store |
| `MobileStorage` | the mobile store |
| `Dashboard` | the web admin dashboard |
| `MobileDashboard` | the mobile dashboard screen |
| `Calendar` | the web calendar |
| `MobileCalendar` | the mobile calendar screen |
| `BookingForm` | the public booking form |
| `Settings` | the web settings page |
| `MobileSettings` | the mobile settings screen |
| `Login` | the admin login gate |
| `App` | the public shell |

`Lists`, `Strings` and `Dates` hold the JavaScript built-ins the views use: `filter`, `trim`, `indexOf`, `replace`, `padStart`, `String(n)`, `parseInt` and `length`.

Components that keep state in React hooks are classes:

- Each hook becomes a field.
- Each handler becomes a method that states the new state, as a function of the old state, the store and the handler's inputs.

Outside events become parameters:

- the clock (`now`, `today`, `datePast`);
- the calendar arithmetic (`daysInMonth`, `firstDay`);
- confirmation dialogs (`confirmed`);
- whether device storage answers a read or accepts a write (`readOk`, `writeOk`).

## Model

| member | source | states |
|---|---|---|
| Types.StatusRoundTrip | src/types/booking.ts:13 | reading back a stored status string gives the status |
| Types.StatusNameInjective | src/types/booking.ts:13 | distinct statuses are stored as distinct strings, so the views' string comparisons compare statuses |
| Types.Apply | src/utils/storage.ts:136 | the shallow merge `{ ...b, ...updates }` keeps the id, the date and the status of the record whenever the update does not name them |
| Types.ApplyNoChange | src/utils/storage.ts:131-139 | merging an empty update object leaves the record unchanged |
| Types.ApplyStatusPatch | src/components/AdminDashboard.tsx:68-71 | the `{ status }` update changes the status and no other field |
| Types.ApplyEditPatch | src/components/AdminDashboard.tsx:130-137 | saving the edit form keeps id, date, status, guests, proposal data and creation time, and takes the eight form fields from the form |
| Types.EditRoundTrip | src/components/AdminDashboard.tsx:115-137 | opening the edit form and saving it unchanged leaves the booking as it was |
| Lists.Filter | src/utils/storage.ts:102-104 | `filter` keeps exactly the elements satisfying the predicate, is no longer than its input, and every kept element satisfies it |
| Lists.FilterAppend | src/components/AdminDashboard.tsx:150-152 | filtering keeps relative order: filtering a concatenation concatenates the filtered parts |
| Lists.FilterIdempotent | src/components/AdminDashboard.tsx:150-152 | filtering twice with one predicate is filtering once |
| Strings.Trim | src/components/BookingForm.tsx:47 | `trim()` is no longer than its input and neither starts nor ends with whitespace |
| Strings.TrimEmptyIffBlank | src/components/BookingForm.tsx:47-54 | `!s.trim()` holds exactly when every character of `s` is whitespace |
| Strings.TrimStart | src/components/BookingForm.tsx:47 | the result is a suffix of the input, starts with a non-space character, and only whitespace was removed |
| Strings.TrimEnd | src/components/BookingForm.tsx:47 | the result is a prefix of the input, ends with a non-space character, and only whitespace was removed |
| Strings.IndexOf | src/components/AdminLogin.tsx:59 | the result is -1 or an occurrence of the pattern, and no occurrence lies before it |
| Strings.ReplaceFirst | src/components/AdminLogin.tsx:59 | `replace` with a string pattern returns the input when the pattern does not occur; otherwise the earliest occurrence, wherever it lies, is replaced and the rest is kept |
| Strings.ReplaceFirstOfPrefix | src/components/AdminLogin.tsx:59 | a string beginning with the pattern loses exactly that prefix |
| Strings.NatToString | src/components/Calendar.tsx:61-63 | `String(n)` is a non-empty run of digits, with one digit below 10 and two below 100 |
| Strings.NatToStringRoundTrip | src/components/Calendar.tsx:61-63 | reading back a number's decimal notation gives the number |
| Strings.DigitsValueLeadingZero | src/components/Calendar.tsx:61-63 | a leading zero does not change a digit string's value |
| Strings.PadStart | src/components/Calendar.tsx:61-63 | `padStart` produces the target width, ends with the input, and fills the front with the pad character |
| Strings.Utf16Length | src/components/AdminSettings.tsx:32 | JavaScript's `length` lies between the code point count and twice that count |
| Dates.Pad2IsPadStart | src/components/Calendar.tsx:61-63 | the two-digit padding of `formatDate` is `padStart(2, '0')` and is at least two characters |
| Dates.FormatDate | src/components/Calendar.tsx:61-63 | for a month and day in range the key is the year's digits, a dash, two characters, a dash and two characters |
| Dates.ParseDate | src/components/Calendar.tsx:61-63 | a parsed key has a non-negative year and day and a 0-based month of at least -1 |
| Dates.FormatParseRoundTrip | src/components/Calendar.tsx:61-63 | parsing `formatDate(y, m, d)` gives back `y`, the 0-based `m` and `d` |
| Dates.FormatDateInjective | src/components/Calendar.tsx:61-63 | distinct days give distinct `YYYY-MM-DD` keys, and equal keys mean equal days |
| Storage.SeedFacts | src/utils/storage.ts:7-76 | there are four pre-existing bookings, with distinct ids, all booked |
| Storage.SeedIdsAre | src/utils/storage.ts:7-76 | the seed ids are `pre-1` to `pre-4` |
| Storage.IsSeedIdIff | src/utils/storage.ts:110 | `PRE_EXISTING_BOOKINGS.some(b => b.id === id)` is membership in the seed ids |
| Storage.FindIndex | src/utils/storage.ts:134 | `findIndex` is -1 exactly when the id is absent; otherwise it is the first index carrying the id |
| Storage.Find | src/utils/storage.ts:115 | `find` answers a record with the id exactly when one exists |
| Storage.SeedFor | src/utils/storage.ts:115 | a seed id finds its seed record |
| Storage.UniqueById | src/utils/storage.ts:86-89 | the literal filter never lengthens the list and always keeps its first record |
| Storage.DedupFrom | src/utils/storage.ts:86-89 | the reference deduplication repeats no id, keeps exactly the unseen ids, and invents no record |
| Storage.UniqueByIdIsDedup | src/utils/storage.ts:86-89 | the literal filter `index === self.findIndex(...)` keeps the first record of every id, as the reference deduplication does |
| Storage.KeepFirstIsDedup | src/utils/storage.ts:86-89 | from any position on, the literal filter agrees with the reference deduplication, given the ids already passed |
| Storage.DedupAppend | src/utils/storage.ts:86-89 | deduplicating a concatenation deduplicates the second part against the first part's ids |
| Storage.DedupDistinct | src/utils/storage.ts:86-89 | a list of distinct, unseen ids passes deduplication whole |
| Storage.Merged | src/utils/storage.ts:79-92 | the merged list starts with the four seeds, in order |
| Storage.MergedShape | src/utils/storage.ts:79-92 | `getBookings` is the seeds, then the first stored record of every id that is not a seed id |
| Storage.MergedProperties | src/utils/storage.ts:79-92 | the merged list starts with the seeds in order, repeats no id, holds exactly the seed and stored ids, and invents no record |
| Storage.MergedOfNothing | src/utils/storage.ts:79-92 | with nothing stored, `getBookings` is exactly the seed list |
| Storage.MergedAppend | src/utils/storage.ts:79-92 | appending to storage appends the records whose ids are new to the merged list |
| Storage.FindAfterDedup | src/utils/storage.ts:86-89 | after deduplication an id finds its first occurrence, unless the id was already seen |
| Storage.FindAppend | src/utils/storage.ts:86-89 | finding in a concatenation finds in the first part when the id occurs there |
| Storage.FindInMerged | src/utils/storage.ts:79-92 | the merged list shows the seed for a seed id, and the first stored record for any other id |
| Storage.SeedsAlwaysWin | src/utils/storage.ts:79-92 | a stored record reusing a seed id is never the one `getBookings` shows |
| Storage.WithoutSeedIds | src/utils/storage.ts:94-100 | `saveBookings` never stores a seed id |
| Storage.WithoutId | src/utils/storage.ts:94-100 | the delete filter leaves no record with the deleted id |
| Storage.OnDate | src/utils/storage.ts:164-167 | `getBookingsForDate`' filter keeps exactly the records on that date |
| Storage.HasBookedOn | src/utils/storage.ts:157-167 | `isDateBooked`'s test holds exactly when the bookings `getBookingsForDate` returns include a booked one |
| Storage.SeedDatesAlwaysBooked | src/utils/storage.ts:157-162 | the four seed dates are booked whatever is stored |
| Storage.Updated | src/utils/storage.ts:108-140 | an update grows the stored list by at most one record and leaves every position except the first match as it was |
| Storage.UpdateTouchesOnlyFirstMatch | src/utils/storage.ts:108-140 | an update changes only the first stored record with the id, and grows the list only by appending a seed copy |
| Storage.UpdateUnknownIsNoOp | src/utils/storage.ts:131-139 | an update for an id that is neither stored nor a seed writes nothing |
| Storage.UpdateOfSeedIsInvisible | src/utils/storage.ts:108-140 | an update of a pre-existing booking leaves `getBookings` exactly as it was |
| Storage.FindAfterReplace | src/utils/storage.ts:131-139 | replacing the first record with an id changes what that id finds and nothing else |
| Storage.UpdateOfUserRecordIsVisible | src/utils/storage.ts:131-139 | after updating a stored non-seed booking, `getBookings` shows the merged record for that id and the same record as before for every other id |
| Storage.AfterDelete | src/utils/storage.ts:94-100 | what a delete writes holds neither the deleted id nor any seed id |
| Storage.FilterKeepsNoDupIds | src/utils/storage.ts:94-100 | filtering a list with distinct ids keeps them distinct |
| Storage.WithoutSeedIdsOfSeeds | src/utils/storage.ts:94-100 | stripping seed ids from seed records leaves nothing |
| Storage.DeleteOfSeedRecords | src/utils/storage.ts:94-100 | deleting from a list of seed records writes the empty list |
| Storage.WithoutSeedIdsKeepsOthers | src/utils/storage.ts:94-100 | records without seed ids pass `saveBookings`' filter untouched |
| Storage.WithoutAbsentId | src/utils/storage.ts:94-100 | deleting an id no record carries changes nothing |
| Storage.DeleteCompacts | src/components/AdminDashboard.tsx:73-85 | a delete from the merged list stores the first record of every non-seed id minus the deleted id; duplicates and seed copies go |
| Storage.DeleteIsVisible | src/components/AdminDashboard.tsx:73-85 | after a delete, `getBookings` lacks the id, except that a seed cannot be deleted and the list then stays as it was |
| Storage.WebStore.constructor | src/utils/storage.ts:79-82 | an absent key reads as an empty stored list |
| Storage.WebStore.GetBookings | src/utils/storage.ts:79-92 | the four seeds come first, in order, followed by at most one record per stored one |
| Storage.WebStore.SaveBookings | src/utils/storage.ts:94-100 | stores the given list minus seed-id records, in order |
| Storage.WebStore.AddBooking | src/utils/storage.ts:102-106 | appends the record, with no check for a repeated id |
| Storage.WebStore.UpdateBooking | src/utils/storage.ts:108-140 | the stored list becomes `Updated`: the first match merged; or a merged seed copy appended for a seed id; or unchanged |
| Storage.WebStore.AddProposal | src/utils/storage.ts:142-155 | appends to the proposal list only |
| Storage.WebStore.IsDateBooked | src/utils/storage.ts:157-162 | a seed date is booked whatever is stored |
| Storage.WebStore.GetBookingsForDate | src/utils/storage.ts:164-167 | exactly the merged bookings on that date, with a booked one among them exactly when `isDateBooked` holds |
| MobileStorage.Loaded | mobile-admin/src/utils/storage.js:79-97 | a failed read or parse answers the seed list alone |
| MobileStorage.LoadedShape | mobile-admin/src/utils/storage.js:79-97 | whatever storage does, the loaded list starts with the four seeds and repeats no id |
| MobileStorage.DateBookedWhenUnreadable | mobile-admin/src/utils/storage.js:200-210 | seed dates are booked even with storage unreadable; unreadable storage books exactly the seed dates |
| MobileStorage.SeedsBookExactlySeedDates | mobile-admin/src/utils/storage.js:93-96 | the seed list the failed read falls back to books exactly the four seed dates |
| MobileStorage.DeleteWrites | mobile-admin/src/utils/storage.js:162-170 | what a delete writes never holds the deleted id, and every record in it was already stored |
| MobileStorage.DeleteAfterFailedReadWipes | mobile-admin/src/utils/storage.js:162-170 | a delete whose read fails still writes, and writes the empty list, losing every user booking |
| MobileStorage.MobileStore.constructor | mobile-admin/src/utils/storage.js:79-82 | an absent key reads as an empty stored list |
| MobileStorage.MobileStore.GetBookings | mobile-admin/src/utils/storage.js:79-97 | the four seeds come first in their declared order, followed by at most one record per stored one, also when the read fails; the order holds only while the seed constant is unsorted (see Left out) |
| MobileStorage.MobileStore.SaveBookings | mobile-admin/src/utils/storage.js:99-109 | stores the list minus seed-id records; a failed write changes nothing |
| MobileStorage.MobileStore.AddBooking | mobile-admin/src/utils/storage.js:111-120 | appends on success; a failed read or write leaves the stored list as it was |
| MobileStorage.MobileStore.UpdateBooking | mobile-admin/src/utils/storage.js:122-160 | the web store's update when read and write succeed, otherwise no change |
| MobileStorage.MobileStore.DeleteBooking | mobile-admin/src/utils/storage.js:162-170 | stores the loaded list minus the id and seed ids when the write succeeds; the loaded list is seeds-only after a failed read |
| MobileStorage.MobileStore.AddProposal | mobile-admin/src/utils/storage.js:172-198 | appends on success; a failed read followed by a good write replaces every stored proposal with the new one |
| MobileStorage.MobileStore.IsDateBooked | mobile-admin/src/utils/storage.js:200-210 | the seed dates are always booked; with storage unreadable they are the only booked dates |
| MobileStorage.MobileStore.GetBookingsForDate | mobile-admin/src/utils/storage.js:212-220 | exactly the loaded bookings on that date, with a booked one among them exactly when `isDateBooked` holds |
| Dashboard.FilterBookings | src/components/AdminDashboard.tsx:150-152 | `'all'` shows the whole list; a status shows exactly the bookings with that status |
| Dashboard.FilterBookingsKeepsOrder | src/components/AdminDashboard.tsx:150-152 | the filtered list keeps the loaded order |
| Dashboard.StatusCount | src/components/AdminDashboard.tsx:164-166 | a counter never exceeds the number of bookings |
| Dashboard.StatusCountsPartition | src/components/AdminDashboard.tsx:164-166 | the four status counters add up to the number of loaded bookings |
| Dashboard.StatusText | src/components/AdminDashboard.tsx:168-176 | a known status gets a Portuguese label different from its name; any other string is shown as it is |
| Dashboard.StatusTextInjective | src/components/AdminDashboard.tsx:168-176 | distinct statuses get distinct labels |
| Dashboard.Insert | src/components/AdminDashboard.tsx:61-66 | insertion into a newest-first list keeps it newest first and adds exactly one booking |
| Dashboard.SortNewestFirst | src/components/AdminDashboard.tsx:61-66 | the loaded list is ordered by `createdAt`, newest first, and is a permutation of what the store returned |
| Dashboard.InsertCount | src/components/AdminDashboard.tsx:61-66 | insertion raises exactly the inserted booking's counter |
| Dashboard.SortKeepsCounts | src/components/AdminDashboard.tsx:61-66 | sorting changes no counter |
| Dashboard.OfferedActions | src/components/AdminDashboard.tsx:337-399 | every booking offers details and delete; edit only when booked; approve and reject only when pending |
| Dashboard.StatusAfter | src/components/AdminDashboard.tsx:139-148 | only approve and reject change a status, to booked and to rejected, and no action leaves approved on a booking that was not already approved |
| Dashboard.OfferedTransitions | src/components/AdminDashboard.tsx:139-148 | an offered action changes a status only from pending, only to booked or rejected, and never produces approved |
| Dashboard.SeedActions | src/components/AdminDashboard.tsx:337-399 | the pre-existing bookings offer edit but never approve or reject |
| Dashboard.EditOfSeedIsInvisible | src/components/AdminDashboard.tsx:130-137 | saving an edit of a pre-existing booking changes nothing `getBookings` shows |
| Dashboard.ApproveIsVisible | src/components/AdminDashboard.tsx:139-142 | approving a stored booking makes `getBookings` show it booked, with every other field unchanged |
| Dashboard.ManualBooking | src/components/AdminDashboard.tsx:87-98 | a manual booking is booked, has its proposal sent, no guests and no amount, and carries the form's date |
| Dashboard.DedupAppendFresh | src/components/AdminDashboard.tsx:100 | appending a record with a fresh id appends it to the deduplicated list |
| Dashboard.ManualBookingBooksDate | src/components/AdminDashboard.tsx:87-113 | a manual booking with a fresh id appears in `getBookings` and books its date |
| Dashboard.AdminDashboard.constructor | src/components/AdminDashboard.tsx:30-55 | initial state: no bookings, no selection, forms closed and blank, filter `'all'` |
| Dashboard.AdminDashboard.LoadBookings | src/components/AdminDashboard.tsx:61-66 | the list becomes the store's bookings sorted newest first |
| Dashboard.AdminDashboard.UpdateBookingStatus | src/components/AdminDashboard.tsx:68-71 | the store receives the `{ status }` update, then the list reloads |
| Dashboard.AdminDashboard.ApproveBooking | src/components/AdminDashboard.tsx:139-142 | approving updates the status to booked without confirmation, then reloads |
| Dashboard.AdminDashboard.RejectBooking | src/components/AdminDashboard.tsx:144-148 | a confirmed reject updates the status to rejected and reloads; a cancelled one changes nothing |
| Dashboard.AdminDashboard.DeleteBooking | src/components/AdminDashboard.tsx:73-85 | a confirmed delete saves the merged list without the id, reloads, and closes the details if they showed it; a cancelled one changes nothing |
| Dashboard.AdminDashboard.AddManualBooking | src/components/AdminDashboard.tsx:87-113 | without name, date and type nothing happens; otherwise the booked record is appended, the form closes and resets, and the list reloads |
| Dashboard.AdminDashboard.HandleEditBooking | src/components/AdminDashboard.tsx:115-128 | selects the booking, fills the form from it, opens the form |
| Dashboard.AdminDashboard.CommitEdit | src/components/AdminDashboard.tsx:132-136 | the update goes to the store, the form and selection close, the list reloads |
| Dashboard.AdminDashboard.SaveEditedBooking | src/components/AdminDashboard.tsx:130-137 | nothing without a selection; otherwise the form goes to the store as the update, then it behaves as `CommitEdit` |
| MobileDashboard.MobileFiltersCover | mobile-admin/src/screens/DashboardScreen.js:304-316 | the screen has an "all" filter and a filter for every status except approved |
| MobileDashboard.ModalActions | mobile-admin/src/screens/DashboardScreen.js:234-268 | the modal always offers delete, and offers accept and reject only while pending |
| MobileDashboard.ModalActionsAreOffered | mobile-admin/src/screens/DashboardScreen.js:234-268 | the modal offers only actions the web dashboard also offers |
| MobileDashboard.DashboardScreen.constructor | mobile-admin/src/screens/DashboardScreen.js:20-24 | initial state: no bookings, no selection, modal closed, filter "all" |
| MobileDashboard.DashboardScreen.LoadBookings | mobile-admin/src/screens/DashboardScreen.js:30-40 | the list becomes the loaded bookings sorted newest first |
| MobileDashboard.DashboardScreen.OpenBooking | mobile-admin/src/screens/DashboardScreen.js:140-143 | tapping a card selects it and opens the modal |
| MobileDashboard.DashboardScreen.SetFilter | mobile-admin/src/screens/DashboardScreen.js:304-316 | a filter button sets its filter, which is never "approved" |
| MobileDashboard.DashboardScreen.UpdateBookingStatus | mobile-admin/src/screens/DashboardScreen.js:48-55 | the store's update with `{ status }`, then reload |
| MobileDashboard.DashboardScreen.ApproveBooking | mobile-admin/src/screens/DashboardScreen.js:57-69 | a confirmed accept stores booked (when storage works) and reloads; a cancelled one changes nothing |
| MobileDashboard.DashboardScreen.RejectBooking | mobile-admin/src/screens/DashboardScreen.js:71-84 | a confirmed reject stores rejected (when storage works) and reloads; a cancelled one changes nothing |
| MobileDashboard.DashboardScreen.DeleteBooking | mobile-admin/src/screens/DashboardScreen.js:86-106 | a confirmed delete runs the store's delete and reloads; a cancelled one changes nothing |
| MobileDashboard.DashboardScreen.ModalApprove | mobile-admin/src/screens/DashboardScreen.js:239-242 | the modal's accept button runs the accept alert on the selected booking and closes the modal |
| MobileDashboard.DashboardScreen.ModalReject | mobile-admin/src/screens/DashboardScreen.js:249-252 | the modal's reject button runs the reject alert on the selected booking and closes the modal |
| MobileDashboard.DashboardScreen.ModalDelete | mobile-admin/src/screens/DashboardScreen.js:261-264 | the modal's delete button closes the modal and runs the delete alert on the selected booking |
| Calendar.AnyBookedIff | src/components/Calendar.tsx:69 | `some(b => b.status === 'booked')` holds exactly when a booked booking is present |
| Calendar.DayStatus | src/components/Calendar.tsx:65-73 | a day reports booked only when it has bookings |
| Calendar.DayStatusIsDateBooked | src/components/Calendar.tsx:65-73 | a day is marked booked exactly when the store reports its date booked; other statuses never mark it |
| Calendar.BookedOnIff | src/components/Calendar.tsx:156-159 | the grid's scan for a booked booking agrees with `isDateBooked` |
| Calendar.DayMarked | src/components/Calendar.tsx:158 | the cell's marker is set exactly when the list books the date |
| Calendar.MakeCell | src/components/Calendar.tsx:157-159 | one iteration of the day loop builds the day's cell with its marker and today flag |
| Calendar.Blanks | src/components/Calendar.tsx:151-153 | `firstDay` blank cells, none when `firstDay` is not positive |
| Calendar.DayCells | src/components/Calendar.tsx:156-183 | one cell per day of the month |
| Calendar.DayCellsAt | src/components/Calendar.tsx:156-183 | position `k` is the cell of day `k + 1` |
| Calendar.BlankRow | src/components/Calendar.tsx:151-153 | the first loop produces exactly the leading blanks |
| Calendar.DayRow | src/components/Calendar.tsx:156-183 | the second loop appends exactly the day cells, in day order |
| Calendar.BuildGrid | src/components/Calendar.tsx:140-186 | the grid is the leading blanks followed by the month's day cells |
| Calendar.GridLayout | src/components/Calendar.tsx:140-186 | every grid position is a blank before the first weekday, or day `j - firstDay + 1` with its own key, its booked marker and its today flag |
| Calendar.MonthKeyInjective | src/components/Calendar.tsx:157 | distinct days of a month get distinct keys |
| Calendar.GridKeysDistinct | src/components/Calendar.tsx:156-183 | in one month's grid, distinct cells have distinct dates and at most one is today |
| Calendar.DeleteOfSeedDiverges | src/components/Calendar.tsx:125-132 | deleting a seed drops it from the calendar's own list while the store still shows it |
| Calendar.CalendarView.constructor | src/components/Calendar.tsx:11-25 | initial state: no bookings, no selection, no modal, no edit, blank form |
| Calendar.CalendarView.LoadBookings | src/components/Calendar.tsx:27-29 | the list becomes `getBookings()`, unsorted |
| Calendar.CalendarView.BookingStatus | src/components/Calendar.tsx:65-73 | `getBookingStatus` answers `'booked'` or nothing, and `'booked'` exactly when the store reports the date booked |
| Calendar.CalendarView.HandleDateClick | src/components/Calendar.tsx:87-101 | a client click on a free date selects it and opens the modal; on a booked date it does nothing; an admin click always selects |
| Calendar.CalendarView.HandleEditBooking | src/components/Calendar.tsx:103-115 | marks the booking as being edited and fills the form from it |
| Calendar.CalendarView.HandleSaveEdit | src/components/Calendar.tsx:117-123 | nothing without an edited booking; otherwise the form goes to the store, the list reloads, the form closes |
| Calendar.CalendarView.HandleDeleteBooking | src/components/Calendar.tsx:125-132 | a confirmed delete stores the merged list minus the id, and the component shows that unfiltered list |
| Calendar.CalendarView.RenderCalendarDays | src/components/Calendar.tsx:140-186 | the grid of the shown month, marked from the store |
| MobileCalendar.MarkedDayOpens | mobile-admin/src/screens/CalendarScreen.js:82-88 | a day the grid marks booked always opens its list when pressed |
| MobileCalendar.SeedDatesMarkedOnDevice | mobile-admin/src/screens/CalendarScreen.js:28-35 | the seed dates are marked even when device storage is unreadable |
| MobileCalendar.CalendarScreen.constructor | mobile-admin/src/screens/CalendarScreen.js:20-22 | initial state: no bookings, no selection, modal closed |
| MobileCalendar.CalendarScreen.LoadBookings | mobile-admin/src/screens/CalendarScreen.js:28-35 | the list becomes the loaded bookings, unsorted, starting with the seeds in their declared order while the seed constant is unsorted (see Left out) |
| MobileCalendar.CalendarScreen.BookingStatus | mobile-admin/src/screens/CalendarScreen.js:60-68 | a day reports booked exactly when the screen's list books it |
| MobileCalendar.CalendarScreen.HandleDatePress | mobile-admin/src/screens/CalendarScreen.js:82-88 | a day with any booking opens exactly that day's bookings; an empty day changes nothing |
| MobileCalendar.CalendarScreen.RenderCalendarDays | mobile-admin/src/screens/CalendarScreen.js:90-138 | the grid of the shown month, marked from the screen's list |
| BookingForm.SanitizeBudget | src/components/BookingForm.tsx:115-117 | the budget input keeps the input's digits in order: all of them when there are at most five, otherwise exactly the first five |
| BookingForm.SanitizeTyped | src/components/BookingForm.tsx:115-117 | typing one character into the budget appends it when it is a digit and fewer than five digits are held, and otherwise changes nothing |
| BookingForm.SanitizeKeepsValid | src/components/BookingForm.tsx:115-117 | a budget that already matches the pattern passes unchanged |
| BookingForm.SanitizeIdempotent | src/components/BookingForm.tsx:115-117 | sanitising twice is sanitising once |
| BookingForm.SanitizedBudgetPasses | src/components/BookingForm.tsx:73-76 | a typed budget is empty or valid, so the only budget error reachable through the input is the required one |
| BookingForm.LeadingDigits | src/components/BookingForm.tsx:119 | `parseInt` reads the longest run of leading digits |
| BookingForm.ParseDuration | src/components/BookingForm.tsx:119 | a parsed duration is never negative |
| BookingForm.ParseDurationOfOption | src/components/BookingForm.tsx:38-42 | every duration option reads back as the number it was written from |
| BookingForm.EmailValidIffPattern | src/components/BookingForm.tsx:67-70 | the left-to-right email check accepts exactly what `/^[^\s@]+@[^\s@]+\.[^\s@]+$/` matches |
| BookingForm.EmailValid | src/components/BookingForm.tsx:67 | an accepted address has at least five characters and no whitespace |
| BookingForm.EmailValidGivesPattern | src/components/BookingForm.tsx:67 | every accepted address matches the pattern |
| BookingForm.PatternGivesEmailValid | src/components/BookingForm.tsx:67 | every address the pattern matches is accepted |
| BookingForm.EmailParts | src/components/BookingForm.tsx:67 | plain, non-empty `a`, `b`, `c` always make a valid `a@b.c` |
| BookingForm.FillName | src/components/BookingForm.tsx:47 | the name error is present exactly when the name is blank |
| BookingForm.FillPhone | src/components/BookingForm.tsx:49 | the phone error is present exactly when the phone is blank |
| BookingForm.FillType | src/components/BookingForm.tsx:51 | the type error is present exactly when no type is chosen |
| BookingForm.FillVenue | src/components/BookingForm.tsx:52 | the venue error is present exactly when the venue is blank |
| BookingForm.FillDuration | src/components/BookingForm.tsx:53 | the duration error is present exactly when the duration is 0; the message field never gets an error |
| BookingForm.FillDate | src/components/BookingForm.tsx:50-64 | the date error is present when the date is empty, past or booked; booked beats past, which beats required |
| BookingForm.FillEmail | src/components/BookingForm.tsx:48-70 | the email error is present when the email is blank or malformed; malformed beats required |
| BookingForm.FillBudget | src/components/BookingForm.tsx:54-76 | the budget error is present when the budget is blank or malformed; malformed beats required |
| BookingForm.FillIsErrorsFor | src/components/BookingForm.tsx:44-80 | the dictionary filled in source order equals the field-by-field error description |
| BookingForm.FillAgrees | src/components/BookingForm.tsx:44-80 | for each field, the filled dictionary holds exactly that field's described error |
| BookingForm.SameErrors | src/components/BookingForm.tsx:44-80 | a dictionary agreeing with the description on every field is the error dictionary |
| BookingForm.ValidIff | src/components/BookingForm.tsx:44-80 | validation passes exactly when the required fields are filled, the date is neither past nor booked, and the email and budget match their patterns |
| BookingForm.RequestOf | src/components/BookingForm.tsx:90-96 | a request is pending, has no proposal sent, and carries the form's fields |
| BookingForm.RequestBooksNothing | src/components/BookingForm.tsx:98 | submitting a request never changes which dates are booked |
| BookingForm.TrimsToNothing | src/components/BookingForm.tsx:47-54 | `!value.trim()` answers whether the value is blank |
| BookingForm.CheckEmail | src/components/BookingForm.tsx:67-68 | `emailRegex.test` answers whether the email matches the pattern |
| BookingForm.RunTests | src/components/BookingForm.tsx:47-76 | the tests made on the form are the described ones |
| BookingForm.FormView.constructor | src/components/BookingForm.tsx:11-22 | initial state: the initial form, no errors |
| BookingForm.FormView.ValidateForm | src/components/BookingForm.tsx:44-80 | the errors become the error dictionary of the form, and the answer is true exactly when it is empty |
| BookingForm.FormView.HandleInputChange | src/components/BookingForm.tsx:111-125 | the budget is sanitised, the duration parsed, any other field taken as typed; a non-empty error on that field is blanked |
| BookingForm.FormView.HandleSubmit | src/components/BookingForm.tsx:82-109 | an invalid form stores nothing; a valid one appends exactly one pending request |
| Settings.PasswordStore.constructor | src/components/AdminSettings.tsx:15-17 | the stored password entry as given |
| Settings.EffectivePassword | src/components/AdminSettings.tsx:15-17 | the stored password, or `cachopos` when none or an empty one is stored; never empty |
| Settings.WebCheck | src/components/AdminSettings.tsx:24-43 | a change succeeds exactly when the current password is right, the new one has at least four code units, and the confirmation matches |
| Settings.EmptyCurrentIsWrong | src/components/AdminSettings.tsx:25-29 | an empty current password is always wrong |
| Settings.ChangedPasswordInForce | src/components/AdminSettings.tsx:46-57 | an accepted new password is the one in force once stored |
| Settings.SettingsForm.constructor | src/components/AdminSettings.tsx:5-11 | initial state: empty fields, no banner |
| Settings.SettingsForm.HandleCurrentChange | src/components/AdminSettings.tsx:143-146 | typing sets the field and clears the banner |
| Settings.SettingsForm.HandleNewChange | src/components/AdminSettings.tsx:170-173 | typing sets the field and clears the banner |
| Settings.SettingsForm.HandleConfirmChange | src/components/AdminSettings.tsx:199-202 | typing sets the field and clears the banner |
| Settings.SettingsForm.HandlePasswordChange | src/components/AdminSettings.tsx:19-58 | the first failed check sets its banner and writes nothing; success stores the new password, reports it and clears the fields |
| MobileSettings.StoredPassword | mobile-admin/src/screens/SettingsScreen.js:25-32 | a failed secure-store read gives the default password |
| MobileSettings.MobileCheck | mobile-admin/src/screens/SettingsScreen.js:35-55 | the empty-field check comes first, then the web checks |
| MobileSettings.SameChecksWhenFilled | mobile-admin/src/screens/SettingsScreen.js:35-55 | whenever the web button is enabled, the two apps decide alike |
| MobileSettings.EmptyFieldsFirst | mobile-admin/src/screens/SettingsScreen.js:35-38 | an empty field is reported whatever password is stored |
| MobileSettings.DefaultWorksWhenUnreadable | mobile-admin/src/screens/SettingsScreen.js:25-32 | with the secure store unreadable, the default password changes the password even when another one is stored |
| MobileSettings.SettingsScreen.constructor | mobile-admin/src/screens/SettingsScreen.js:17-19 | initial state: empty fields |
| MobileSettings.SettingsScreen.HandlePasswordChange | mobile-admin/src/screens/SettingsScreen.js:34-76 | nothing is written unless every check passes and the write succeeds; the fields clear only when the success alert is acknowledged |
| Login.Accepts | src/components/AdminLogin.tsx:24 | accepted credentials name the user `admin` and carry a non-empty password |
| Login.OnePassword | src/components/AdminLogin.tsx:15-30 | exactly one password opens the gate: the stored one, or the default while none is stored |
| Login.LoginAfterChange | src/components/AdminLogin.tsx:19-30 | after a successful change the new password opens the gate and every other password, the old one included, is refused |
| Login.MainSite | src/components/AdminLogin.tsx:51-62 | a local host goes to the page's origin; any other host goes to `https://` plus the host with its first `admin.` cut |
| Login.MainSiteOfAdminHost | src/components/AdminLogin.tsx:51-62 | `admin.` plus a domain leads back to that domain |
| Login.MainSiteOfPlainHost | src/components/AdminLogin.tsx:51-62 | a host without `admin.` is kept as it is |
| Login.MainSiteCutsInnerAdmin | src/components/AdminLogin.tsx:59 | an inner `admin.`, as in `myadmin.example.com`, is cut too, giving `myexample.com` |
| Login.AdminLogin.constructor | src/components/AdminLogin.tsx:6-12 | initial state: user `admin`, empty password, no error, not authenticated |
| Login.AdminLogin.HandleLogin | src/components/AdminLogin.tsx:19-30 | the right credentials authenticate and clear the error; wrong ones set the error and leave the gate as it was |
| Login.AdminLogin.HandleInputChange | src/components/AdminLogin.tsx:32-39 | only the password input changes anything, and it clears the error |
| Login.AdminLogin.HandleLogout | src/components/AdminLogin.tsx:41-49 | back to the initial state of the form |
| App.FirstValue | src/App.tsx:35-44 | a value found belongs to a parameter with that name, and nothing is found exactly when no parameter has that name |
| App.FirstValueIff | src/App.tsx:35-44 | `searchParams.get(k)` answers the first parameter named `k`; later duplicates are ignored |
| App.IsAdminSite | src/App.tsx:33-54 | on a host without the `admin.` prefix and without the `#admin` hash, the site is the admin site exactly when the first `admin` parameter is `true` |
| App.ScreenOf | src/App.tsx:56-89 | the admin gate beats the success screen, which beats the active section |
| App.MainSiteLeavesAdmin | src/App.tsx:33-54 | the login gate's link back leads to a page that is not the admin site |
| App.AppShell.constructor | src/App.tsx:10-11 | initial state: home section, no success screen |
| App.AppShell.HandleBookingSubmit | src/App.tsx:13-15 | shows the success screen |
| App.AppShell.HandleBookNow | src/App.tsx:17-20 | the booking section, success screen off |
| App.AppShell.HandleBackToHome | src/App.tsx:22-25 | the home section, success screen off |
| App.AppShell.HandleViewCalendar | src/App.tsx:27-30 | the calendar section, success screen off |
| App.AppShell.SetSection | src/App.tsx:60-68 | the header sets the section alone, so it does not leave the success screen |

## Left out

- Storage I/O itself: JSON encoding and the key-value stores become fields holding parsed lists. The mobile app's asynchronous calls become `readOk`/`writeOk` flags, one flag per storage access, with no interleaving between operations.
- MobileDashboard.DashboardScreen.UpdateBookingStatus: one `readOk` drives both the store update's read and the reload's read, so the mixed outcomes (a failed update read followed by a good reload, or the reverse) are not described. A separate flag for the reload made the proof too costly for the verifier.
- MobileDashboard.DashboardScreen.ApproveBooking: the same single `readOk` for the update's read and the reload's read.
- MobileDashboard.DashboardScreen.RejectBooking: the same single `readOk` for the update's read and the reload's read.
- MobileDashboard.DashboardScreen.DeleteBooking: the same single `readOk` for the delete's read and the reload's read.
- MobileDashboard.DashboardScreen.ModalApprove: inherits the single `readOk` of `ApproveBooking`.
- MobileDashboard.DashboardScreen.ModalReject: inherits the single `readOk` of `RejectBooking`.
- MobileDashboard.DashboardScreen.ModalDelete: inherits the single `readOk` of `DeleteBooking`.
- Storage.WebStore.GetBookings: the contract states the seed prefix and a size bound only. That no id repeats, which ids appear and that no record is invented are stated by `Storage.MergedProperties`, because stating them on the function that reads the store made its callers' proofs too costly.
- MobileStorage.MobileStore.GetBookings: the contract states the seed prefix and a size bound only; that no id repeats is stated by `MobileStorage.LoadedShape`, for the same reason.
- MobileStorage.MobileStore.GetBookings: after a failed read it returns the seed constant itself (mobile-admin/src/utils/storage.js:95), and `DashboardScreen.loadBookings` sorts that array in place (mobile-admin/src/screens/DashboardScreen.js:33-35). The seeds' `createdAt` values ascend, so from then on the constant is reversed and every later read starts pre-4, pre-3, pre-2, pre-1. The model keeps `Seeds` as an immutable value, so this aliasing and the in-place sort are not captured, and the seed-prefix clause (`r[..|Seeds|] == Seeds`) holds only until such a load. The dashboard sorts again, the calendars look bookings up by date and the store finds seeds by id, so no screen shows the difference.
- MobileCalendar.CalendarScreen.LoadBookings: its `bookings[..|Seeds|] == Seeds` clause rests on the same immutable seed constant, so it too holds only until a dashboard load after a failed read has sorted the shared constant.
- Storage.UniqueById: the contract states a size bound and the kept first record only; `Storage.UniqueByIdIsDedup` states what the filter keeps.
- A malformed `band_bookings` value on the web site: `JSON.parse` throws out of `getBookings`, and the throw is not modelled. On the mobile app the same failure is a failed read.
- `createdAt`: it is stored as an ISO string and modelled as the instant it names, in milliseconds since the epoch. Only its order is ever used.
- Dashboard.SortNewestFirst: JavaScript's sort is stable, and the order among bookings with equal `createdAt` is not modelled. The contract states order and permutation only.
- Date arithmetic from `Date`:
  - `getDaysInMonth`, `getFirstDayOfMonth` and today's date are inputs (`daysInMonth`, `firstDay`, `today`).
  - The form's past-date test `new Date(eventDate) < new Date()` is the input `datePast`.
  - The calendar's `isPast` styling flag is not modelled.
- `navigateMonth`, `handleInterest`, the mobile pull-to-refresh (`onRefresh`) and the mount effects: they change only the shown month, the location hash or a spinner, or just call `loadBookings`.
- Proposals: only the append is modelled, since no view reads or builds them. `ProposalStatus` names its third value `Declined` so it does not clash with the booking status `Rejected`.
- Timers, `isSubmitting`/`isChanging` flags, the simulated delays and the `onSubmit` callback.
- The web settings page's one-second delayed write: the model performs it at once.
- Show-password toggles, the logout alert, `openExternalLink`, icons, styling and the rest of the JSX rendering.
- The mobile `LoginScreen`, `AdminApp`, `HomePage`, `Header`, `BookingSuccess` and the mobile navigation: they are not part of this model.
- The booking form's guest count: it has no input and keeps its initial value 50.
- `parseInt` on a duration option with a sign or leading spaces: the options are the plain numbers 45, 60 and 90.
- Query-string parsing: `URLSearchParams` receives the already decoded list of name and value pairs.
