/** The availability engine of the bookings page: the overlap test for a
    room and a stay, the rooms free for a stay, the list filter, the
    counters on the page and which row actions are offered per status. */
module Bookings {
  import opened Seqs
  import opened Text
  import opened Types

  /** Bookings in these two statuses never block a room; every other
      status, `Expired` included, does. */
  predicate BlocksRoom(s: BookingStatus) {
    s != Cancelled && s != CheckedOut
  }

  /** Two stays, as half-open day intervals, share at least one night. */
  predicate StaysOverlap(start1: Day, end1: Day, start2: Day, end2: Day) {
    start1 < end2 && end1 > start2
  }

  /** `excludeBookingId && b.id === excludeBookingId`: only a non-empty id excludes. */
  predicate IsExcluded(b: Booking, excludeBookingId: Option<string>) {
    excludeBookingId.Some? && excludeBookingId.value != "" && b.id == excludeBookingId.value
  }

  /** Booking `b` conflicts with a new stay on `roomId` from `checkIn` to `checkOut`. */
  predicate Conflicts(b: Booking, roomId: string, checkIn: Day, checkOut: Day, excludeBookingId: Option<string>) {
    && b.room_id == Some(roomId)
    && !IsExcluded(b, excludeBookingId)
    && BlocksRoom(b.status)
    && StaysOverlap(checkIn, checkOut, b.check_in_date, b.check_out_date)
  }

  /** `hasOverlappingBooking`: some booking in the list conflicts. */
  predicate HasOverlappingBooking(bookings: seq<Booking>, roomId: string, checkIn: Day, checkOut: Day,
                                  excludeBookingId: Option<string>)
    ensures HasOverlappingBooking(bookings, roomId, checkIn, checkOut, excludeBookingId) <==>
      exists i :: 0 <= i < |bookings| && Conflicts(bookings[i], roomId, checkIn, checkOut, excludeBookingId)
    decreases |bookings|
  {
    if bookings == [] then false
    else
      var rest := HasOverlappingBooking(bookings[1..], roomId, checkIn, checkOut, excludeBookingId);
      assert forall i :: 1 <= i < |bookings| ==> bookings[i] == bookings[1..][i - 1];
      Conflicts(bookings[0], roomId, checkIn, checkOut, excludeBookingId) || rest
  }

  /** Overlap is symmetric, and a stay that ends on the day another begins
      does not overlap it. */
  lemma StaysOverlapSymmetric(start1: Day, end1: Day, start2: Day, end2: Day)
    ensures StaysOverlap(start1, end1, start2, end2) <==> StaysOverlap(start2, end2, start1, end1)
    ensures end1 == start2 ==> !StaysOverlap(start1, end1, start2, end2)
    ensures end2 == start1 ==> !StaysOverlap(start1, end1, start2, end2)
  {
  }

  /** Adding a booking on another room, the excluded booking, or a cancelled
      or checked-out booking never changes the answer. */
  lemma {:induction false} NeverCounted(bookings: seq<Booking>, b: Booking, roomId: string, checkIn: Day, checkOut: Day,
                                        excludeBookingId: Option<string>)
    requires b.room_id != Some(roomId) || IsExcluded(b, excludeBookingId) || b.status == Cancelled || b.status == CheckedOut
    ensures HasOverlappingBooking(bookings + [b], roomId, checkIn, checkOut, excludeBookingId)
        == HasOverlappingBooking(bookings, roomId, checkIn, checkOut, excludeBookingId)
  {
    var all := bookings + [b];
    if HasOverlappingBooking(all, roomId, checkIn, checkOut, excludeBookingId) {
      var i :| 0 <= i < |all| && Conflicts(all[i], roomId, checkIn, checkOut, excludeBookingId);
      assert i < |bookings| && all[i] == bookings[i];
    }
    if HasOverlappingBooking(bookings, roomId, checkIn, checkOut, excludeBookingId) {
      var i :| 0 <= i < |bookings| && Conflicts(bookings[i], roomId, checkIn, checkOut, excludeBookingId);
      assert all[i] == bookings[i];
    }
  }

  /** A booking in any blocking status (reserved, confirmed, checked in or
      expired) on the room whose stay overlaps the new one is a conflict. */
  lemma {:induction false} BlockingBookingConflicts(bookings: seq<Booking>, k: nat, roomId: string, checkIn: Day, checkOut: Day)
    requires k < |bookings|
    requires bookings[k].room_id == Some(roomId)
    requires bookings[k].status in {Reserved, Confirmed, CheckedIn, Expired}
    requires StaysOverlap(checkIn, checkOut, bookings[k].check_in_date, bookings[k].check_out_date)
    ensures HasOverlappingBooking(bookings, roomId, checkIn, checkOut, None)
  {
    assert Conflicts(bookings[k], roomId, checkIn, checkOut, None);
  }

  /** `getAvailableRooms`: every room when either date is blank; otherwise
      the rooms without a conflicting booking, in their original order. */
  function GetAvailableRooms(rooms: seq<Room>, bookings: seq<Booking>, checkIn: Option<Day>, checkOut: Option<Day>,
                             excludeBookingId: Option<string>): (r: seq<Room>)
    ensures checkIn.None? || checkOut.None? ==> r == rooms
    ensures checkIn.Some? && checkOut.Some? ==> forall i :: 0 <= i < |r| ==>
      r[i] in rooms && !HasOverlappingBooking(bookings, r[i].id, checkIn.value, checkOut.value, excludeBookingId)
    ensures checkIn.Some? && checkOut.Some? ==> forall i :: 0 <= i < |rooms| ==>
      HasOverlappingBooking(bookings, rooms[i].id, checkIn.value, checkOut.value, excludeBookingId) || rooms[i] in r
  {
    if checkIn.None? || checkOut.None? then rooms
    else Filter(rooms, (room: Room) => !HasOverlappingBooking(bookings, room.id, checkIn.value, checkOut.value, excludeBookingId))
  }

  /** `guests.find(g => g.id === id)`: the first guest with that id. */
  function FindGuest(guests: seq<Guest>, id: string): (r: Option<Guest>)
    ensures r.Some? ==> r.value in guests && r.value.id == id
    ensures r.None? <==> forall i :: 0 <= i < |guests| ==> guests[i].id != id
    decreases |guests|
  {
    if guests == [] then None
    else if guests[0].id == id then Some(guests[0])
    else
      var r := FindGuest(guests[1..], id);
      assert forall i :: 1 <= i < |guests| ==> guests[i] == guests[1..][i - 1];
      r
  }

  /** `rooms.find(r => r.id === id)`: the first room with that id; an absent
      id matches no room. */
  function FindRoom(rooms: seq<Room>, id: Option<string>): (r: Option<Room>)
    ensures r.Some? ==> r.value in rooms && id == Some(r.value.id)
    ensures r.None? <==> forall i :: 0 <= i < |rooms| ==> id != Some(rooms[i].id)
    decreases |rooms|
  {
    if rooms == [] || id.None? then None
    else if rooms[0].id == id.value then Some(rooms[0])
    else
      var r := FindRoom(rooms[1..], id);
      assert forall i :: 1 <= i < |rooms| ==> rooms[i] == rooms[1..][i - 1];
      r
  }

  /** The search/status test of `filteredBookings`. `statusFilter` None is 'all'. */
  predicate BookingMatches(b: Booking, guests: seq<Guest>, rooms: seq<Room>, searchTerm: string,
                           statusFilter: Option<BookingStatus>)
  {
    var guest := FindGuest(guests, b.guest_id);
    var room := FindRoom(rooms, b.room_id);
    && ((guest.Some? && ContainsIgnoreCase(guest.value.full_name, searchTerm))
        || (room.Some? && ContainsIgnoreCase(room.value.room_number, searchTerm)))
    && (statusFilter.None? || b.status == statusFilter.value)
  }

  function FilteredBookings(bookings: seq<Booking>, guests: seq<Guest>, rooms: seq<Room>, searchTerm: string,
                            statusFilter: Option<BookingStatus>): (r: seq<Booking>)
    ensures forall i :: 0 <= i < |r| ==> r[i] in bookings && BookingMatches(r[i], guests, rooms, searchTerm, statusFilter)
    ensures forall i :: 0 <= i < |bookings| && BookingMatches(bookings[i], guests, rooms, searchTerm, statusFilter) ==>
      bookings[i] in r
  {
    Filter(bookings, (b: Booking) => BookingMatches(b, guests, rooms, searchTerm, statusFilter))
  }

  /** With an empty search term a booking is listed exactly when its status
      passes and its guest or its room can be found: a booking whose guest
      and room are both unknown is never listed. */
  lemma EmptySearchListsKnownBookings(b: Booking, guests: seq<Guest>, rooms: seq<Room>, statusFilter: Option<BookingStatus>)
    ensures BookingMatches(b, guests, rooms, "", statusFilter) <==>
      (statusFilter.None? || b.status == statusFilter.value)
      && ((exists i :: 0 <= i < |guests| && guests[i].id == b.guest_id)
          || (exists i :: 0 <= i < |rooms| && b.room_id == Some(rooms[i].id)))
  {
    var guest := FindGuest(guests, b.guest_id);
    var room := FindRoom(rooms, b.room_id);
    if guest.Some? { ContainsEmpty(ToLower(guest.value.full_name)); }
    if room.Some? { ContainsEmpty(ToLower(room.value.room_number)); }
  }

  /** Page counters: today's arrivals (reserved, checking in today), today's
      departures (checked in, checking out today), guests in the hotel and
      pending (reserved) bookings. */
  function TodaysCheckins(bookings: seq<Booking>, today: Day): (n: nat)
    ensures n <= Count(bookings, (b: Booking) => b.status == Reserved)
  {
    CountMono(bookings, (b: Booking) => b.check_in_date == today && b.status == Reserved, (b: Booking) => b.status == Reserved);
    Count(bookings, (b: Booking) => b.check_in_date == today && b.status == Reserved)
  }

  function TodaysCheckouts(bookings: seq<Booking>, today: Day): (n: nat)
    ensures n <= CheckedInCount(bookings)
  {
    CountMono(bookings, (b: Booking) => b.check_out_date == today && b.status == CheckedIn, (b: Booking) => b.status == CheckedIn);
    Count(bookings, (b: Booking) => b.check_out_date == today && b.status == CheckedIn)
  }

  function CheckedInCount(bookings: seq<Booking>): (n: nat)
    ensures n <= |bookings|
  {
    Count(bookings, (b: Booking) => b.status == CheckedIn)
  }

  function PendingCount(bookings: seq<Booking>): (n: nat)
    ensures n <= |bookings|
  {
    Count(bookings, (b: Booking) => b.status == Reserved)
  }

  /** Row actions of the bookings table. */
  datatype RowAction = ViewAction | EditAction | CheckInAction | CheckOutAction | CancelAction

  function OfferedActions(s: BookingStatus): (r: set<RowAction>)
    ensures ViewAction in r
    ensures !(CheckInAction in r && CheckOutAction in r)
    ensures s !in {Reserved, CheckedIn} ==> r == {ViewAction}
  {
    {ViewAction}
    + (if s == Reserved then {EditAction, CheckInAction, CancelAction} else {})
    + (if s == CheckedIn then {CheckOutAction} else {})
  }

  /** Edit, Check In and Cancel only for reserved bookings, Check Out only
      for checked-in ones; no booking is ever offered both Check In and Check Out. */
  lemma ActionGating(s: BookingStatus)
    ensures ViewAction in OfferedActions(s)
    ensures EditAction in OfferedActions(s) <==> s == Reserved
    ensures CheckInAction in OfferedActions(s) <==> s == Reserved
    ensures CancelAction in OfferedActions(s) <==> s == Reserved
    ensures CheckOutAction in OfferedActions(s) <==> s == CheckedIn
    ensures !(CheckInAction in OfferedActions(s) && CheckOutAction in OfferedActions(s))
  {
  }
}
