# Hotel dashboard core, modelled in Dafny

This project models the rules inside the staff dashboard of a hotel
management system: the web pages receptionists, managers, housekeepers,
kitchen staff and auditors use. It covers:

- the room **availability engine** of the bookings page: the half-open stay
  overlap test, the statuses that never block a room, the excluded booking
  of an edit, and the validation chains of create and update;
- the **check-in wizard**: room-type resolution with its three-level
  fallback, the rooms offered, the room → guest → key step machine and the
  payload it submits;
- the smaller page rules: the room and room-type forms (amenity toggle,
  image list), the staff and guest validators, every search filter, the
  kitchen and housekeeping status partitions, the dashboard counters
  (occupancy, today's arrivals, departures and revenue), the notification
  bell's list and unread counter, the audit-log colour lookup, paging
  parameters of the bookings query, the sidebar's initials and role
  navigation, the authentication store and the login redirect.

Modelling choices:

- One module per source file, plus three shared modules:
  - `Seqs`: Option/Result, filter and count;
  - `Text`: the string operations the pages use;
  - `Types`: the records.
- Calendar dates are integer day numbers; "today" is a parameter.
  Timestamps compared by prefix stay strings, and today's date text is a
  parameter.
- Every server call becomes a `serverOk` flag or an `Option` holding the
  server's answer. After a successful call the pages reload their lists;
  the model sets the list to what the backend then holds.
- A text field that the source tests for truthiness is `""` when blank or
  undefined.
- A select whose value may be `'all'` is an `Option`, with `None` meaning
  'all'.
- Pages whose handlers update component state are classes with those
  fields. Their methods state the whole new state and the invariant they
  keep (`Valid`, `Progressed`, `Consistent`).

## Model

| member | source | states |
|---|---|---|
| Bookings.HasOverlappingBooking | dashboard/src/app/dashboard/bookings/page.tsx:170-184 | holds iff some booking conflicts: same room, not the excluded id, a blocking status, and overlapping half-open stays |
| Bookings.StaysOverlapSymmetric | dashboard/src/app/dashboard/bookings/page.tsx:176-182 | overlap is symmetric; a stay ending on the day another begins does not overlap it |
| Bookings.NeverCounted | dashboard/src/app/dashboard/bookings/page.tsx:171-175 | adding a booking on another room, the excluded booking, or a cancelled or checked-out one never changes the answer |
| Bookings.BlockingBookingConflicts | dashboard/src/app/dashboard/bookings/page.tsx:171-183 | a reserved, confirmed, checked-in or expired booking on the room whose stay overlaps is a conflict |
| Bookings.GetAvailableRooms | dashboard/src/app/dashboard/bookings/page.tsx:187-190 | all rooms when a date is blank; otherwise exactly the rooms with no conflicting booking |
| Bookings.FindGuest | dashboard/src/app/dashboard/bookings/page.tsx:405 | the guest found has the id; None iff no guest has it |
| Bookings.FindRoom | dashboard/src/app/dashboard/bookings/page.tsx:406 | the room found has the id; None iff no room has it (an absent id finds nothing) |
| Bookings.FilteredBookings | dashboard/src/app/dashboard/bookings/page.tsx:404-412 | a booking is listed iff its guest's name or its room's number contains the term ignoring case, and the status passes |
| Bookings.EmptySearchListsKnownBookings | dashboard/src/app/dashboard/bookings/page.tsx:404-412 | with an empty term, a booking is listed iff the status passes and its guest or its room is known |
| Bookings.TodaysCheckins | dashboard/src/app/dashboard/bookings/page.tsx:421 | today's arrivals are reserved bookings starting today; never more than the reserved bookings |
| Bookings.TodaysCheckouts | dashboard/src/app/dashboard/bookings/page.tsx:422 | today's departures are checked-in bookings ending today; never more than the guests in the hotel |
| Bookings.CheckedInCount | dashboard/src/app/dashboard/bookings/page.tsx:423 | the checked-in bookings, at most all bookings |
| Bookings.PendingCount | dashboard/src/app/dashboard/bookings/page.tsx:506 | the reserved bookings, at most all bookings |
| Bookings.OfferedActions | dashboard/src/app/dashboard/bookings/page.tsx:796-825 | View is always offered; Check In and Check Out never together; only View for other statuses |
| Bookings.ActionGating | dashboard/src/app/dashboard/bookings/page.tsx:796-825 | Edit, Check In and Cancel are offered iff reserved; Check Out iff checked in; View always |
| BookingsPage.ValidateCreate | dashboard/src/app/dashboard/bookings/page.tsx:233-286 | the guest-field error iff the new-guest tab lacks name or id number; an accepted payload carries the form's room, dates, amount and notes, and either the chosen guest id or the new guest's details |
| BookingsPage.CreateAcceptedIsSound | dashboard/src/app/dashboard/bookings/page.tsx:233-285 | an accepted payload names exactly one of guest id or guest details, has a room, starts today or later, has a non-empty stay and conflicts with no booking |
| BookingsPage.PastCheckInRejected | dashboard/src/app/dashboard/bookings/page.tsx:268-274 | once the form is complete, a check-in before today is rejected with that error and a check-in today is not |
| BookingsPage.EmptyStayRejected | dashboard/src/app/dashboard/bookings/page.tsx:276-280 | check-in on or after check-out is always rejected |
| BookingsPage.ValidateUpdate | dashboard/src/app/dashboard/bookings/page.tsx:341-354 | rejects only when both dates are filled; inverted dates give the date error; an accepted edit with room and dates conflicts with no booking but itself; the payload is the edit form |
| BookingsPage.EditPayload | dashboard/src/app/dashboard/bookings/page.tsx:358 | never changes the status; sends the room iff one is selected, the dates as in the form, and the amount and notes |
| BookingsPage.EditFormOf | dashboard/src/app/dashboard/bookings/page.tsx:326-334 | the form starts with both dates filled, and with a room iff the booking has one |
| BookingsPage.UnchangedEditKeepsBooking | dashboard/src/app/dashboard/bookings/page.tsx:326-358 | saving the edit form unchanged leaves the booking as it was |
| BookingsPage.OneDateEditDoubleBooks | dashboard/src/app/dashboard/bookings/page.tsx:341-358 | an edit that fills only the check-in date passes the checks and double-books a room |
| BookingsPage.ValidateUpdateFilled | dashboard/src/app/dashboard/bookings/page.tsx:946-949 | with blanks filled from the stored booking, an accepted edit leaves a non-empty stay free of conflicts |
| BookingsPage.FilledUpdatePreservesNoOverlap | dashboard/src/app/dashboard/bookings/page.tsx:338-369 | with blanks filled from the stored booking, every accepted edit keeps the rooms free of double bookings |
| BookingsPage.UpdateById | dashboard/src/app/dashboard/bookings/page.tsx:358 | the update reaches exactly the booking with that id; the others are untouched |
| BookingsPage.CreatedBooking | dashboard/src/app/dashboard/bookings/page.tsx:289 | the booking stored for an accepted payload is reserved, on the chosen room and dates |
| BookingsPage.CreatePreservesNoOverlap | dashboard/src/app/dashboard/bookings/page.tsx:233-290 | an accepted create keeps every room free of overlapping blocking bookings |
| BookingsPage.UpdatePreservesNoOverlap | dashboard/src/app/dashboard/bookings/page.tsx:338-369 | an accepted edit that names room and dates, or leaves no room, keeps every room free of overlaps |
| BookingsPage.UnchangedEditPasses | dashboard/src/app/dashboard/bookings/page.tsx:326-354 | an edit that changes nothing passes validation: the overlap check skips the booking's own id |
| BookingsPage.CancelPreservesNoOverlap | dashboard/src/app/dashboard/bookings/page.tsx:371-380 | cancelling never creates an overlap |
| BookingsPage.CancelOnlyChangesStatus | dashboard/src/app/dashboard/bookings/page.tsx:373 | cancel changes the status to cancelled and nothing else |
| BookingsPage.Page.constructor | dashboard/src/app/dashboard/bookings/page.tsx:84-122 | the page starts on the search tab with blank forms and closed dialogs |
| BookingsPage.Page.FillNewBooking | dashboard/src/app/dashboard/bookings/page.tsx:100-120 | entering the new-booking form changes only the form and opens the dialog |
| BookingsPage.Page.HandleCreateBooking | dashboard/src/app/dashboard/bookings/page.tsx:233-301 | the first failing check is the outcome and nothing changes; on success the booking is added, forms reset and the dialog closes |
| BookingsPage.Page.HandleEditBooking | dashboard/src/app/dashboard/bookings/page.tsx:326-336 | selects the booking and fills the edit form from it |
| BookingsPage.Page.FillEdit | dashboard/src/app/dashboard/bookings/page.tsx:122 | the operator's edit replaces the edit form |
| BookingsPage.Page.HandleUpdateBooking | dashboard/src/app/dashboard/bookings/page.tsx:338-369 | nothing without a selection; date order, then overlap excluding the booking itself; on success the update is applied and the dialog closes |
| BookingsPage.Page.HandleCancelBooking | dashboard/src/app/dashboard/bookings/page.tsx:371-380 | on success exactly that booking is cancelled; on failure the list is unchanged |
| Types.ApplyUpdate | dashboard/src/types/index.ts:135-144 | an update keeps id, guest, room type and the embedded room record; each field sent (room, dates, amount, status, notes) replaces the stored one and an absent field keeps it |
| CheckIn.ResolveRoomType | dashboard/src/components/check-in-modal.tsx:83-101 | the booking's own type, else the embedded room's type, else the type of the first listed room its room_id names; None exactly when all three levels fail; never empty |
| CheckIn.TypedBookingIgnoresRooms | dashboard/src/components/check-in-modal.tsx:83 | a booking with a type resolves to it whatever the room list |
| CheckIn.UnknownRoomUnresolved | dashboard/src/components/check-in-modal.tsx:91-101 | an untyped booking whose room is not listed resolves to nothing |
| CheckIn.CandidateRooms | dashboard/src/components/check-in-modal.tsx:96-111 | no type gives no rooms; otherwise exactly the available rooms of that type |
| CheckIn.NoUnavailableRoomOffered | dashboard/src/components/check-in-modal.tsx:109-111 | an occupied, cleaning or maintenance room is never offered |
| CheckIn.CandidatesKeepOrder | dashboard/src/components/check-in-modal.tsx:109-111 | the candidates keep list order (filtering distributes over concatenation) |
| CheckIn.PooledBookingExample | dashboard/src/components/check-in-modal.tsx:81-111 | a booking with a type and no room is offered the available rooms of its type only |
| CheckIn.NextStep | dashboard/src/components/check-in-modal.tsx:141-152 | advances one step only when allowed and not at the key step; otherwise stays |
| CheckIn.BackStep | dashboard/src/components/check-in-modal.tsx:154-160 | goes back one step; at the room step stays |
| CheckIn.NextBackRoundTrip | dashboard/src/components/check-in-modal.tsx:141-160 | back undoes an allowed next, and next undoes back |
| CheckIn.StepStatus | dashboard/src/components/check-in-modal.tsx:200-208 | current iff the same step; completed iff earlier; upcoming iff later |
| CheckIn.ExactlyOneCurrent | dashboard/src/components/check-in-modal.tsx:200-208 | exactly one of the three steps is current |
| CheckIn.OptionalText | dashboard/src/components/check-in-modal.tsx:181-183 | an empty text is not sent; a sent text is the text |
| CheckIn.IsMissingGuestId | dashboard/src/components/check-in-modal.tsx:57 | an id on file means a guest with both an id number and an id type |
| CheckIn.CanProceed | dashboard/src/components/check-in-modal.tsx:126-139 | the room step needs a chosen room; past it, a guest with an id on file never blocks |
| CheckIn.GuardsMatchSubmit | dashboard/src/components/check-in-modal.tsx:126-184 | the room guard fails iff submit reports no room, and both guards pass iff submit sends |
| CheckIn.Submission | dashboard/src/components/check-in-modal.tsx:162-184 | sent iff there is a booking, a room and (no missing id, or both id fields); the payload carries booking, room and the typed fields |
| CheckIn.CheckInModal.constructor | dashboard/src/components/check-in-modal.tsx:44-54 | the wizard starts at the room step with empty fields |
| CheckIn.CheckInModal.FetchAvailableRooms | dashboard/src/components/check-in-modal.tsx:73-124 | runs with no room chosen; an unresolved type empties the offer; a resolved one offers the candidates; a failed request changes nothing |
| CheckIn.CheckInModal.Open | dashboard/src/components/check-in-modal.tsx:59-71 | opening on a booking resets to the room step, copies the guest's id on file and fetches rooms |
| CheckIn.CheckInModal.SelectRoom | dashboard/src/components/check-in-modal.tsx:255-263 | only a room on offer (or none) can be chosen, at the room step; the choice keeps the progress invariant |
| CheckIn.CheckInModal.EnterGuestId | dashboard/src/components/check-in-modal.tsx:52-53 | typing the id fields keeps the progress invariant |
| CheckIn.CheckInModal.EnterKeyCard | dashboard/src/components/check-in-modal.tsx:54 | typing the key card keeps the progress invariant |
| CheckIn.CheckInModal.HandleNext | dashboard/src/components/check-in-modal.tsx:126-152 | moves forward exactly when the current step may proceed; keeps the progress invariant |
| CheckIn.CheckInModal.HandleBack | dashboard/src/components/check-in-modal.tsx:154-160 | moves back one step; keeps the progress invariant |
| CheckIn.CheckInModal.HandleSubmit | dashboard/src/components/check-in-modal.tsx:162-184 | the outcome of the submit guards; a wizard that reached the key step always submits; the room sent is one on offer, available when the rooms were fetched |
| Rooms.RoomSaveRequest | dashboard/src/app/dashboard/rooms/page.tsx:131-143 | sent iff room number and type are filled; an update iff a room is being edited |
| Rooms.RoomTypeSaveRequest | dashboard/src/app/dashboard/rooms/page.tsx:196-215 | sent iff name is filled and price is not 0; an update iff a type is being edited |
| Rooms.Toggle | dashboard/src/app/dashboard/rooms/page.tsx:175-182 | flips the amenity's membership, appending when absent; other entries are kept |
| Rooms.ToggleTwiceRestores | dashboard/src/app/dashboard/rooms/page.tsx:175-182 | toggling an absent amenity twice restores the list |
| Rooms.ToggleTwiceMembership | dashboard/src/app/dashboard/rooms/page.tsx:175-182 | toggling twice restores which amenities are present |
| Rooms.FilteredRooms | dashboard/src/app/dashboard/rooms/page.tsx:268-272 | a room is listed iff its number contains the term ignoring case and the status passes |
| Rooms.UnfilteredListsAll | dashboard/src/app/dashboard/rooms/page.tsx:268-272 | an empty term and 'all' list every room in order |
| Rooms.StatusCount | dashboard/src/app/dashboard/rooms/page.tsx:278-281 | rooms in a status, at most all rooms |
| Rooms.StatusCountsSum | dashboard/src/app/dashboard/rooms/page.tsx:278-281 | the four status counts sum to the number of rooms |
| Rooms.RoomsPage.constructor | dashboard/src/app/dashboard/rooms/page.tsx:92-109 | blank forms, nothing edited, dialogs closed |
| Rooms.RoomsPage.HandleSaveRoom | dashboard/src/app/dashboard/rooms/page.tsx:131-155 | sends the save request; on success resets the form and closes the dialog; otherwise changes nothing |
| Rooms.RoomsPage.HandleEditRoom | dashboard/src/app/dashboard/rooms/page.tsx:157-165 | fills the form from the room and opens the dialog in edit mode |
| Rooms.RoomsPage.HandleDialogChange | dashboard/src/app/dashboard/rooms/page.tsx:167-173 | closing clears the edited id and resets the form |
| Rooms.RoomsPage.ToggleTypeAmenity | dashboard/src/app/dashboard/rooms/page.tsx:175-182 | the amenities become the toggled list |
| Rooms.RoomsPage.AddTypeImageUrl | dashboard/src/app/dashboard/rooms/page.tsx:184-189 | a non-blank URL is appended trimmed and the input cleared; a blank one changes nothing |
| Rooms.RoomsPage.RemoveTypeImage | dashboard/src/app/dashboard/rooms/page.tsx:191-194 | removes exactly the image at the index; an out-of-range index changes nothing |
| Rooms.RoomsPage.HandleSaveRoomType | dashboard/src/app/dashboard/rooms/page.tsx:196-232 | sends the save request; on success resets form and input and closes the dialog |
| Rooms.RoomsPage.HandleEditRoomType | dashboard/src/app/dashboard/rooms/page.tsx:234-244 | fills the type form from the type and opens the dialog |
| Rooms.RoomsPage.HandleTypeDialogChange | dashboard/src/app/dashboard/rooms/page.tsx:246-253 | closing clears the edited id, the form and the URL input |
| Staff.SaveUserRequest | dashboard/src/app/dashboard/staff/page.tsx:134-159 | rejects missing names, then a missing password on create; an update carries the password iff one was typed |
| Staff.CreateHasPassword | dashboard/src/app/dashboard/staff/page.tsx:139-146 | while editing implies a selection, a save creates iff not editing, and a create always has a password |
| Staff.ToggleActiveUpdate | dashboard/src/app/dashboard/staff/page.tsx:171 | sends the negation of the current flag |
| Staff.ToggleTwiceRestores | dashboard/src/app/dashboard/staff/page.tsx:169-178 | toggling twice restores the user |
| Staff.FilteredUsers | dashboard/src/app/dashboard/staff/page.tsx:199-205 | a user is listed iff full name or user name contains the term ignoring case, and the role passes |
| Staff.EmptySearchListsRole | dashboard/src/app/dashboard/staff/page.tsx:199-205 | an empty term lists exactly the users of the chosen role |
| Staff.ActiveStaff | dashboard/src/app/dashboard/staff/page.tsx:208 | active users, at most all users |
| Staff.InactiveStaff | dashboard/src/app/dashboard/staff/page.tsx:209 | inactive users, at most all users |
| Staff.ActivePlusInactive | dashboard/src/app/dashboard/staff/page.tsx:208-210 | active plus inactive is the whole staff |
| Staff.StaffPage.constructor | dashboard/src/app/dashboard/staff/page.tsx:81-91 | blank receptionist form, not editing, dialog closed |
| Staff.StaffPage.HandleAddNew | dashboard/src/app/dashboard/staff/page.tsx:109-119 | blank receptionist form, not editing, dialog open |
| Staff.StaffPage.HandleEdit | dashboard/src/app/dashboard/staff/page.tsx:121-132 | form filled from the user with a blank password, editing that user |
| Staff.StaffPage.EditForm | dashboard/src/app/dashboard/staff/page.tsx:86-91 | typing replaces the form |
| Staff.StaffPage.HandleSaveUser | dashboard/src/app/dashboard/staff/page.tsx:134-167 | returns the save request; a sent save closes the dialog; a create always carries a password |
| Guests.FilteredGuests | dashboard/src/app/dashboard/guests/page.tsx:117-121 | a guest is listed iff name or email contains the term ignoring case, or phone contains it exactly |
| Guests.EmptySearchListsAll | dashboard/src/app/dashboard/guests/page.tsx:117-121 | an empty term lists every guest |
| Guests.NoContactMatchesByNameOnly | dashboard/src/app/dashboard/guests/page.tsx:117-121 | a guest with no email or phone matches only through the name |
| Guests.PhoneIsCaseSensitive | dashboard/src/app/dashboard/guests/page.tsx:120 | a phone "A" is not found by "a" |
| Guests.ActiveGuests | dashboard/src/app/dashboard/guests/page.tsx:124 | the checked-in bookings; 0 iff none is checked in |
| Guests.GuestsPage.constructor | dashboard/src/app/dashboard/guests/page.tsx:55-64 | blank form with national_id, dialog closed |
| Guests.GuestsPage.FillGuest | dashboard/src/app/dashboard/guests/page.tsx:57-64 | typing replaces the form |
| Guests.GuestsPage.HandleCreateGuest | dashboard/src/app/dashboard/guests/page.tsx:86-104 | sent iff name and phone are filled; on success the form resets to national_id and the dialog closes |
| Payments.StatusText | dashboard/src/types/index.ts:8 | each status's text is non-empty lower case |
| Payments.FilteredPayments | dashboard/src/app/dashboard/payments/page.tsx:90-96 | a payment is listed iff receipt number or id contains the term ignoring case, and the status passes |
| Payments.EmptySearchListsAll | dashboard/src/app/dashboard/payments/page.tsx:93 | an empty term and 'all' list every payment |
| Payments.PendingPayments | dashboard/src/app/dashboard/payments/page.tsx:102 | pending payments; 0 iff none is pending |
| Payments.PendingCountMatchesList | dashboard/src/app/dashboard/payments/page.tsx:90-102 | the pending counter equals the length of the pending-filtered list |
| Payments.ReceiptLabel | dashboard/src/app/dashboard/payments/page.tsx:266 | the receipt number, else the first 8 characters of the id |
| Payments.StatusBadge | dashboard/src/app/dashboard/payments/page.tsx:276 | default iff completed or failed; outline iff pending or refunded |
| Payments.StatusLabel | dashboard/src/app/dashboard/payments/page.tsx:279 | the status with its first letter upper-cased |
| Payments.LabelRoundTrip | dashboard/src/app/dashboard/payments/page.tsx:279 | lower-casing the label gives the status back |
| Payments.LabelsDistinct | dashboard/src/app/dashboard/payments/page.tsx:279 | distinct statuses have distinct labels |
| Kitchen.Column | dashboard/src/app/dashboard/kitchen/page.tsx:74-77 | a column holds exactly the orders of its status |
| Kitchen.ColumnsPartition | dashboard/src/app/dashboard/kitchen/page.tsx:74-77 | every order is in exactly its own column, and the column sizes sum to the number of orders |
| Kitchen.NextStatus | dashboard/src/app/dashboard/kitchen/page.tsx:116 | each column's button moves one rank forward; delivered has none |
| Kitchen.ThreeMovesToDelivery | dashboard/src/app/dashboard/kitchen/page.tsx:116-178 | ordered → preparing → ready → delivered, then no further move |
| Kitchen.StatusUpdate | dashboard/src/app/dashboard/kitchen/page.tsx:62-64 | the update sends the status only |
| Kitchen.DeliveredShown | dashboard/src/app/dashboard/kitchen/page.tsx:203 | the first five delivered orders, in order |
| Housekeeping.StatusParam | dashboard/src/app/dashboard/housekeeping/page.tsx:24 | no parameter for 'all'; otherwise the tab's name |
| Housekeeping.FilteredTasks | dashboard/src/app/dashboard/housekeeping/page.tsx:56-61 | a task is listed iff the tab shows its status |
| Housekeeping.TabsSplitAll | dashboard/src/app/dashboard/housekeeping/page.tsx:56-61 | 'all' lists every task; the pending and completed tabs split the tasks between them |
| Housekeeping.MarkCleanOnPendingTab | dashboard/src/app/dashboard/housekeeping/page.tsx:136 | Mark Clean is offered iff the task is on the pending tab, iff it is not on the completed tab |
| Housekeeping.StatusBadge | dashboard/src/app/dashboard/housekeeping/page.tsx:170-191 | known statuses get their style and text; any other status gets the pending style and its raw text |
| Housekeeping.KnownStatusesDistinct | dashboard/src/app/dashboard/housekeeping/page.tsx:170-191 | known statuses show a label other than the raw text, and distinct statuses distinct styles |
| Housekeeping.HousekeepingPage.constructor | dashboard/src/app/dashboard/housekeeping/page.tsx:15-19 | starts on the pending tab with nothing being completed |
| Housekeeping.HousekeepingPage.HandleComplete | dashboard/src/app/dashboard/housekeeping/page.tsx:40-54 | afterwards nothing is being completed and the tasks are the reloaded list, or unchanged if the reload fails |
| SectionCards.OccupancyRate | dashboard/src/components/section-cards.tsx:49 | 0 without rooms; otherwise checked-in / rooms × 100 rounded to nearest |
| SectionCards.OccupancyEmptyAndFull | dashboard/src/components/section-cards.tsx:49 | no guests give 0; one guest per room gives 100 |
| SectionCards.OccupancyMonotone | dashboard/src/components/section-cards.tsx:49 | more guests never lower the rate; at most 100 while guests do not exceed rooms |
| SectionCards.TodaysRevenue | dashboard/src/components/section-cards.tsx:59-61 | 0 when no completed payment is from today; never negative for non-negative amounts |
| SectionCards.RevenueIsSumOfFiltered | dashboard/src/components/section-cards.tsx:59-61 | revenue is the sum over the completed payments from today |
| SectionCards.RevenueAppend | dashboard/src/components/section-cards.tsx:59-61 | revenue over two lists is the sum of their revenues |
| SectionCards.TransactionsToday | dashboard/src/components/section-cards.tsx:149 | payments from today, at most all payments |
| SectionCards.RevenuePaymentsAreTransactions | dashboard/src/components/section-cards.tsx:59-149 | the payments counted in revenue never outnumber the transactions badge |
| Notifications.UnreadCount | dashboard/src/components/site-header/notification-bell.tsx:65 | the unread notifications; equal to the length iff all are unread |
| Notifications.RemoveById | dashboard/src/components/site-header/notification-bell.tsx:88 | removes exactly the entries with that id and keeps the rest |
| Notifications.RemoveUnreadById | dashboard/src/components/site-header/notification-bell.tsx:88-89 | removing unread entries lowers the unread count by their number |
| Notifications.BadgeText | dashboard/src/components/site-header/notification-bell.tsx:112-118 | hidden iff 0; "9+" above 9; otherwise the one-digit number |
| Notifications.NotificationBell.constructor | dashboard/src/components/site-header/notification-bell.tsx:55-58 | empty list, count 0, nothing being read |
| Notifications.NotificationBell.FetchNotifications | dashboard/src/components/site-header/notification-bell.tsx:60-71 | a fetch sets the list and the count of its unread entries; a failure changes nothing |
| Notifications.NotificationBell.HandleMarkAsRead | dashboard/src/components/site-header/notification-bell.tsx:82-95 | success removes the id and decrements without going below 0; failure changes nothing; counter and list stay in agreement |
| Notifications.NotificationBell.HandleMarkAllRead | dashboard/src/components/site-header/notification-bell.tsx:97-105 | success empties the list and zeroes the count; failure changes nothing |
| Audit.GetActionColor | dashboard/src/app/dashboard/audit/page.tsx:77-85 | the colour of the first key, in table order, contained in the lower-cased action; else the slate default |
| Audit.FilteredLogs | dashboard/src/app/dashboard/audit/page.tsx:67-75 | a log is listed iff id, user id, entity type or action contains the term ignoring case, and the entity passes |
| Audit.UnfilteredListsAll | dashboard/src/app/dashboard/audit/page.tsx:67-75 | an empty term and 'all' list every log |
| Audit.TodaysActivity | dashboard/src/app/dashboard/audit/page.tsx:115 | logs stamped today; 0 iff none is |
| Audit.UserIds | dashboard/src/app/dashboard/audit/page.tsx:128 | exactly the non-empty user ids of the logs |
| Audit.UniqueUsers | dashboard/src/app/dashboard/audit/page.tsx:128 | distinct users, at most the number of logs |
| Audit.SingleUser | dashboard/src/app/dashboard/audit/page.tsx:128 | logs all by one user count one user |
| Audit.UserColumn | dashboard/src/app/dashboard/audit/page.tsx:208 | the first 8 characters of the user id, or 'System' |
| Audit.EntityColumn | dashboard/src/app/dashboard/audit/page.tsx:219 | the first 8 characters of the entity id, or '-' |
| UseBookings.Key | dashboard/src/hooks/use-bookings.ts:19-24 | defaults page 1, size 10, created_at descending, no filters |
| UseBookings.Skip | dashboard/src/hooks/use-bookings.ts:26 | the offset of a page is never negative for pages from 1 |
| UseBookings.QueryParams | dashboard/src/hooks/use-bookings.ts:28-36 | offset and limit from page and size, sorting copied, search only when non-empty, statuses only when set and not 'all' |
| UseBookings.DefaultsFirstPage | dashboard/src/hooks/use-bookings.ts:19-32 | no arguments ask for skip 0, limit 10, newest first |
| UseBookings.PagesAdjacent | dashboard/src/hooks/use-bookings.ts:26 | the next page starts where the previous one ends |
| UseBookings.PagesDisjoint | dashboard/src/hooks/use-bookings.ts:26 | distinct pages never overlap |
| UseBookings.AllStatusIsNoFilter | dashboard/src/hooks/use-bookings.ts:34 | 'all' as status sends the same request as no status |
| Sidebar.FirstLetters | dashboard/src/components/layout/app-sidebar.tsx:58-59 | one letter per non-empty word |
| Sidebar.FirstLettersAppend | dashboard/src/components/layout/app-sidebar.tsx:58-59 | the letters of joined word lists are the letters of each, in order |
| Sidebar.FirstLettersOneWord | dashboard/src/components/layout/app-sidebar.tsx:58-59 | a word gives its first character, an empty word nothing |
| Sidebar.GetInitials | dashboard/src/components/layout/app-sidebar.tsx:55-62 | as many characters as non-empty words, at most two; none lower case; a prefix of the upper-cased first letters |
| Sidebar.InitialsStartWithName | dashboard/src/components/layout/app-sidebar.tsx:55-62 | a name not starting with a space starts its initials with its upper-cased first letter |
| Sidebar.TwoWordInitials | dashboard/src/components/layout/app-sidebar.tsx:55-62 | any first and last name separated by one space give their upper-cased first letters, in order |
| Sidebar.RoleNavigation | dashboard/src/lib/constants.ts:87-130 | every role starts at the dashboard and no two of its links share a target |
| Sidebar.Navigation | dashboard/src/components/layout/app-sidebar.tsx:53 | empty iff there is no role; otherwise the role's entry |
| Sidebar.AuditLinkRoles | dashboard/src/lib/constants.ts:87-130 | only administrators and auditors get the audit-log link |
| Sidebar.DistinctHrefsAtMostOneActive | dashboard/src/components/layout/app-sidebar.tsx:96 | links with distinct targets highlight at most one |
| Sidebar.AtMostOneActive | dashboard/src/components/layout/app-sidebar.tsx:94-96 | whatever the role and path, at most one link is highlighted |
| Sidebar.SidebarState.constructor | dashboard/src/components/layout/app-sidebar.tsx:49 | the sidebar starts expanded |
| Sidebar.SidebarState.ToggleCollapsed | dashboard/src/components/layout/app-sidebar.tsx:185 | the button flips the flag |
| AuthStore.SignedOutStorage | dashboard/src/stores/auth-store.ts:36-40 | both keys are removed and every other entry is kept |
| AuthStore.SignOutIdempotent | dashboard/src/stores/auth-store.ts:36-42 | signing out twice leaves the storage as signing out once |
| AuthStore.Store.constructor | dashboard/src/stores/auth-store.ts:18-22 | no user, no token, signed out, loading |
| AuthStore.Store.SetToken | dashboard/src/stores/auth-store.ts:24-30 | token kept (and stored in a browser), signed in; user and loading untouched |
| AuthStore.Store.SetUser | dashboard/src/stores/auth-store.ts:32-34 | user kept, signed in, loading done |
| AuthStore.Store.Logout | dashboard/src/stores/auth-store.ts:36-42 | both keys removed; no user, no token, signed out, loading done |
| AuthStore.Store.FetchUser | dashboard/src/stores/auth-store.ts:44-52 | success sets the user; failure leaves exactly the signed-out state of logout |
| AuthStore.Store.Initialize | dashboard/src/stores/auth-store.ts:54-67 | no browser or no stored token ends loading; a stored token signs in and fetches the user |
| AuthProvider.Redirect | dashboard/src/components/providers/auth-provider.tsx:22-32 | nothing before mounting or while loading; signed-out off /login → /login; signed-in on /login → /dashboard; otherwise nothing |
| AuthProvider.RendersChildren | dashboard/src/components/providers/auth-provider.tsx:34-45 | children render iff mounted and not loading |
| AuthProvider.RenderedPageIsAllowed | dashboard/src/components/providers/auth-provider.tsx:22-45 | a page rendered and left in place is the login page iff the visitor is signed out |
| AuthProvider.RendersWhileRedirecting | dashboard/src/components/providers/auth-provider.tsx:22-45 | a signed-out visitor on a protected page sees its children while the login redirect is pending |
| AuthProvider.RedirectSettles | dashboard/src/components/providers/auth-provider.tsx:22-32 | the guard never navigates to the page it is on, and the target page navigates no further |

## Left out

- Floating point: the occupancy rate uses exact rational rounding. Double-precision artefacts of `Math.round(c / t * 100)` at exact halves are not modelled.
- Dates and time zones: `new Date(...)` parsing, local midnight, and the UTC `toISOString` date are replaced by integer days and a date-text parameter.
- Case folding and trimming cover ASCII only. Non-ASCII letters and Unicode white space are not handled.
- Network, toasts, spinners (`isSubmitting`, `loadingRooms`, `refreshing`), polling intervals and console logging are left out. The intermediate `readingId` and `completingTaskId` values exist only while a request is in flight. The model is sequential and shows only their final value.
- The bookings page's inline guest lookup and guest creation (`handleSearchGuest`, `handleCreateGuest`) are left out; they only fill the form fields the model takes as input.
- The bookings page's `handleCheckIn` and `handleCheckOut` are bare server calls with a reload, with no rule of their own.
- The check-in call passes an object where the endpoint helper takes a booking id. That is a call into code outside this model.
- The server's handling of blank edit fields is not modelled. `Types.ApplyUpdate` assumes that a field that is not sent keeps its stored value.
- Types.ApplyUpdate: the embedded `room` record is kept as stored. When an update changes `room_id`, it no longer matches until the page reloads the booking from the backend.
- BookingsPage.EditPayload: a date input the operator clears is sent by the page as the empty text `''`. The model does not send that date, so the stored date is kept. The backend's answer to an empty date is outside this model.
- Room status updates from the rooms table (`handleUpdateStatus`) are a single server call and are not modelled.
- Room-type names shown in the check-in dialog and the rooms table (`roomTypeName`, `getRoomTypeName`) are display lookups and are not modelled.
- Staff deletion and its confirmation dialog are left out.
- `Housekeeping.StatusBadge` treats the status as plain text. A status spelled like a built-in object key (e.g. `constructor`) would read a prototype member in the source; that case is not modelled.
- `CheckIn.CheckInModal.Open` does not model the `guest` input changing while the dialog stays open on the same booking.
- `Notifications.NotificationBell.HandleMarkAsRead` guarantees counter and list agreement only when the id names exactly one unread notification. Ids are unique, and the list holds unread notifications only, so this always holds in practice.
- The audit page's details column (a JSON rendering of `details`) and the timestamp formatting are presentation and are not modelled.

## Findings

| source | as written | input that shows it | evidently intended | confidence | as-written member | corrected member |
|---|---|---|---|---|---|---|
| dashboard/src/app/dashboard/bookings/page.tsx:341-354 | the date-order and overlap checks run only when both dates are in the edit form | booking a on room r, days 10-12; booking b on r, days 20-22; editing b with check-in 11 and no check-out passes both checks and makes a and b share night 11 | check the stay the booking will have, filling a blank date from the stored booking, as the room list of the edit dialog does (lines 946-949) | low, not executed; it relies on the backend keeping the stored date when the page sends none | BookingsPage.OneDateEditDoubleBooks | BookingsPage.FilledUpdatePreservesNoOverlap |

The bookings page class (`BookingsPage.Page.HandleUpdateBooking`) keeps the check as written, because it models the page's behaviour; `BookingsPage.ValidateUpdateFilled` is the corrected check.
