/** The bookings page as a store: the list of bookings, the new-booking and
    edit forms, and the create / update / cancel handlers with their
    validation chains. Server calls are a `serverOk` flag; after a
    successful call the page reloads the list, modelled as the list the
    backend then holds. */
module BookingsPage {
  import opened Seqs
  import opened Types
  import opened Bookings

  datatype GuestTab = SearchTab | CreateTab

  /** The new-booking form; a blank date input is None. */
  datatype BookingForm = BookingForm(
    guest_id: string,
    room_id: string,
    check_in_date: Option<Day>,
    check_out_date: Option<Day>,
    total_amount: int,
    notes: string)

  /** The edit form; `room_id` "" is an unselected room. */
  datatype EditForm = EditForm(
    check_in_date: Option<Day>,
    check_out_date: Option<Day>,
    room_id: string,
    total_amount: int,
    notes: string)

  /** What `bookingsApi.create` receives: exactly one of an existing guest id
      or inline guest details. */
  datatype CreatePayload = CreatePayload(
    guest_id: Option<string>,
    guest_details: Option<GuestForm>,
    room_id: string,
    check_in_date: Day,
    check_out_date: Day,
    total_amount: int,
    notes: string)

  datatype ValidationError =
    | MissingGuestFields        // new-guest tab without full name or id number
    | MissingRequiredFields     // no guest, room or date
    | PastCheckIn               // check-in before today
    | CheckInNotBeforeCheckOut  // check-in on or after check-out
    | RoomAlreadyBooked         // another blocking booking overlaps the stay

  datatype Outcome = Rejected(error: ValidationError) | ServerFailed | Saved | NothingSelected

  const EmptyGuestForm := GuestForm("", "", "", "", "", "")
  const EmptyBookingForm := BookingForm("", "", None, None, 0, "")

  /** The validation chain of `handleCreateBooking`; the first failing check
      decides the error. */
  function ValidateCreate(tab: GuestTab, guest: GuestForm, form: BookingForm, bookings: seq<Booking>, today: Day)
    : (r: Result<CreatePayload, ValidationError>)
    ensures r == Err(MissingGuestFields) <==> tab == CreateTab && (guest.full_name == "" || guest.id_number == "")
    ensures r.Ok? && tab == CreateTab ==> r.value.guest_details == Some(guest) && r.value.guest_id.None?
    ensures r.Ok? && tab == SearchTab ==> r.value.guest_id == Some(form.guest_id) && r.value.guest_details.None?
    ensures r.Ok? ==> r.value.room_id == form.room_id && form.check_in_date == Some(r.value.check_in_date)
                      && form.check_out_date == Some(r.value.check_out_date)
    ensures r.Ok? ==> r.value.total_amount == form.total_amount && r.value.notes == form.notes
  {
    if tab == CreateTab && (guest.full_name == "" || guest.id_number == "") then Err(MissingGuestFields)
    else
      var guestId := if tab == CreateTab || form.guest_id == "" then None else Some(form.guest_id);
      var details := if tab == CreateTab then Some(guest) else None;
      if (guestId.None? && details.None?) || form.room_id == ""
         || form.check_in_date.None? || form.check_out_date.None? then Err(MissingRequiredFields)
      else if form.check_in_date.value < today then Err(PastCheckIn)
      else if form.check_in_date.value >= form.check_out_date.value then Err(CheckInNotBeforeCheckOut)
      else if HasOverlappingBooking(bookings, form.room_id, form.check_in_date.value, form.check_out_date.value, None)
      then Err(RoomAlreadyBooked)
      else Ok(CreatePayload(guestId, details, form.room_id, form.check_in_date.value, form.check_out_date.value,
                            form.total_amount, form.notes))
  }

  /** A payload that passes is complete, starts today or later, has a
      non-empty stay and does not conflict with any booking of its room. */
  lemma CreateAcceptedIsSound(tab: GuestTab, guest: GuestForm, form: BookingForm, bookings: seq<Booking>, today: Day)
    requires ValidateCreate(tab, guest, form, bookings, today).Ok?
    ensures var p := ValidateCreate(tab, guest, form, bookings, today).value;
      && (p.guest_id.Some? != p.guest_details.Some?)
      && p.room_id != ""
      && today <= p.check_in_date < p.check_out_date
      && forall i :: 0 <= i < |bookings| ==> !Conflicts(bookings[i], p.room_id, p.check_in_date, p.check_out_date, None)
  {
  }

  /** Once the form is complete, a check-in before today is rejected
      whatever the other fields say, while a check-in today passes that step. */
  lemma PastCheckInRejected(tab: GuestTab, guest: GuestForm, form: BookingForm, bookings: seq<Booking>, today: Day)
    requires ValidateCreate(tab, guest, form, bookings, today) != Err(MissingGuestFields)
    requires ValidateCreate(tab, guest, form, bookings, today) != Err(MissingRequiredFields)
    ensures form.check_in_date.value < today <==> ValidateCreate(tab, guest, form, bookings, today) == Err(PastCheckIn)
  {
  }

  /** A stay whose check-in equals or follows its check-out is rejected. */
  lemma EmptyStayRejected(tab: GuestTab, guest: GuestForm, form: BookingForm, bookings: seq<Booking>, today: Day)
    requires form.check_in_date.Some? && form.check_out_date.Some?
    requires form.check_in_date.value >= form.check_out_date.value
    ensures ValidateCreate(tab, guest, form, bookings, today).Err?
  {
  }

  /** The validation chain of `handleUpdateBooking`: the date order only when
      both dates are filled in, the overlap check (excluding the edited
      booking) only when the room and both dates are. */
  function ValidateUpdate(edit: EditForm, bookings: seq<Booking>, bookingId: string): (r: Result<BookingUpdate, ValidationError>)
    ensures r.Ok? ==> r.value == EditPayload(edit)
    ensures r.Err? ==> edit.check_in_date.Some? && edit.check_out_date.Some?
    ensures edit.check_in_date.Some? && edit.check_out_date.Some? && edit.check_in_date.value >= edit.check_out_date.value
            ==> r == Err(CheckInNotBeforeCheckOut)
    ensures r.Ok? && edit.check_in_date.Some? && edit.check_out_date.Some? && edit.room_id != "" ==>
      forall i :: 0 <= i < |bookings| ==>
        !Conflicts(bookings[i], edit.room_id, edit.check_in_date.value, edit.check_out_date.value, Some(bookingId))
  {
    var datesGiven := edit.check_in_date.Some? && edit.check_out_date.Some?;
    if datesGiven && edit.check_in_date.value >= edit.check_out_date.value then Err(CheckInNotBeforeCheckOut)
    else if datesGiven && edit.room_id != ""
         && HasOverlappingBooking(bookings, edit.room_id, edit.check_in_date.value, edit.check_out_date.value, Some(bookingId))
    then Err(RoomAlreadyBooked)
    else Ok(EditPayload(edit))
  }

  /** The update sent for an edit: an unselected room is not sent, and a
      blank date input (None) is taken as a date not sent. */
  function EditPayload(edit: EditForm): (r: BookingUpdate)
    ensures r.status.None?
    ensures r.room_id.Some? <==> edit.room_id != ""
    ensures r.room_id.GetOr("") == edit.room_id
    ensures r.check_in_date == edit.check_in_date && r.check_out_date == edit.check_out_date
    ensures r.total_amount == Some(edit.total_amount) && r.notes == Some(edit.notes)
  {
    BookingUpdate(if edit.room_id == "" then None else Some(edit.room_id), edit.check_in_date, edit.check_out_date,
                  Some(edit.total_amount), None, Some(edit.notes))
  }

  /** Cancel sends the cancelled status and nothing else. */
  const CancelPayload := BookingUpdate(None, None, None, None, Some(Cancelled), None)

  /** The edit form as `handleEditBooking` fills it from a booking. */
  function EditFormOf(b: Booking): (r: EditForm)
    ensures r.check_in_date.Some? && r.check_out_date.Some?
    ensures r.room_id != "" <==> b.room_id.Some? && b.room_id.value != ""
  {
    EditForm(Some(b.check_in_date), Some(b.check_out_date), b.room_id.GetOr(""), b.total_amount, b.notes)
  }

  /** The backend applies an update to the booking with that id. */
  function UpdateById(bookings: seq<Booking>, id: string, u: BookingUpdate): (r: seq<Booking>)
    ensures |r| == |bookings|
    ensures forall i :: 0 <= i < |r| ==> r[i] == if bookings[i].id == id then ApplyUpdate(bookings[i], u) else bookings[i]
  {
    seq(|bookings|, i requires 0 <= i < |bookings| => if bookings[i].id == id then ApplyUpdate(bookings[i], u) else bookings[i])
  }

  /** The booking the backend stores for an accepted create payload. */
  function CreatedBooking(p: CreatePayload, rooms: seq<Room>, newId: string, newGuestId: string): (b: Booking)
    ensures b.id == newId && b.status == Reserved && b.room_id == Some(p.room_id)
    ensures b.check_in_date == p.check_in_date && b.check_out_date == p.check_out_date
  {
    var room := FindRoom(rooms, Some(p.room_id));
    Booking(newId, p.guest_id.GetOr(newGuestId), if room.Some? then room.value.room_type_id else "",
            Some(p.room_id), None, p.check_in_date, p.check_out_date, p.total_amount, Reserved, p.notes)
  }

  /** No two blocking bookings of one room share a night. */
  ghost predicate NoOverlap(bookings: seq<Booking>) {
    forall i, j :: 0 <= i < |bookings| && 0 <= j < |bookings| && i != j
      && bookings[i].room_id.Some? && bookings[i].room_id == bookings[j].room_id
      && BlocksRoom(bookings[i].status) && BlocksRoom(bookings[j].status)
      ==> !StaysOverlap(bookings[i].check_in_date, bookings[i].check_out_date,
                        bookings[j].check_in_date, bookings[j].check_out_date)
  }

  ghost predicate UniqueIds(bookings: seq<Booking>) {
    forall i, j :: 0 <= i < j < |bookings| ==> bookings[i].id != bookings[j].id
  }

  /** An accepted create keeps the rooms free of double bookings. */
  lemma {:induction false} CreatePreservesNoOverlap(tab: GuestTab, guest: GuestForm, form: BookingForm,
                                                    bookings: seq<Booking>, today: Day, rooms: seq<Room>,
                                                    newId: string, newGuestId: string)
    requires NoOverlap(bookings)
    requires ValidateCreate(tab, guest, form, bookings, today).Ok?
    ensures NoOverlap(bookings + [CreatedBooking(ValidateCreate(tab, guest, form, bookings, today).value, rooms, newId, newGuestId)])
  {
    var p := ValidateCreate(tab, guest, form, bookings, today).value;
    var nb := CreatedBooking(p, rooms, newId, newGuestId);
    var all := bookings + [nb];
    forall i, j | 0 <= i < |all| && 0 <= j < |all| && i != j
      && all[i].room_id.Some? && all[i].room_id == all[j].room_id
      && BlocksRoom(all[i].status) && BlocksRoom(all[j].status)
      ensures !StaysOverlap(all[i].check_in_date, all[i].check_out_date, all[j].check_in_date, all[j].check_out_date)
    {
      if i == |bookings| {
        assert !Conflicts(bookings[j], p.room_id, p.check_in_date, p.check_out_date, None);
      } else if j == |bookings| {
        assert !Conflicts(bookings[i], p.room_id, p.check_in_date, p.check_out_date, None);
      } else {
        assert all[i] == bookings[i] && all[j] == bookings[j];
      }
    }
  }

  /** An accepted edit that names a room and both dates keeps the rooms free
      of double bookings; so does any edit that leaves the booking without a room. */
  lemma {:induction false} UpdatePreservesNoOverlap(edit: EditForm, bookings: seq<Booking>, k: nat)
    requires k < |bookings| && bookings[k].id != ""
    requires NoOverlap(bookings) && UniqueIds(bookings)
    requires ValidateUpdate(edit, bookings, bookings[k].id).Ok?
    requires (edit.room_id != "" && edit.check_in_date.Some? && edit.check_out_date.Some?)
             || ApplyUpdate(bookings[k], EditPayload(edit)).room_id.None?
    ensures NoOverlap(UpdateById(bookings, bookings[k].id, EditPayload(edit)))
  {
    var id := bookings[k].id;
    var u := EditPayload(edit);
    var all := UpdateById(bookings, id, u);
    var m := ApplyUpdate(bookings[k], u);
    forall i | 0 <= i < |bookings| && i != k ensures all[i] == bookings[i] {
      if i < k { assert bookings[i].id != bookings[k].id; } else { assert bookings[k].id != bookings[i].id; }
    }
    forall i, j | 0 <= i < |all| && 0 <= j < |all| && i != j
      && all[i].room_id.Some? && all[i].room_id == all[j].room_id
      && BlocksRoom(all[i].status) && BlocksRoom(all[j].status)
      ensures !StaysOverlap(all[i].check_in_date, all[i].check_out_date, all[j].check_in_date, all[j].check_out_date)
    {
      if i == k {
        assert all[i] == m;
        assert !Conflicts(bookings[j], edit.room_id, edit.check_in_date.value, edit.check_out_date.value, Some(id));
      } else if j == k {
        assert all[j] == m;
        assert !Conflicts(bookings[i], edit.room_id, edit.check_in_date.value, edit.check_out_date.value, Some(id));
      }
    }
  }

  /** The update check as written lets a one-date edit through unchecked:
      with booking a on room r for days 10-12 and booking b on r for days
      20-22, moving b's check-in alone to day 11 passes both checks and
      double-books the room. */
  lemma OneDateEditDoubleBooks()
    ensures var a := Booking("a", "g", "t", Some("r"), None, 10, 12, 0, Reserved, "");
      var b := Booking("b", "g", "t", Some("r"), None, 20, 22, 0, Reserved, "");
      var edit := EditForm(Some(11), None, "r", 0, "");
      && NoOverlap([a, b]) && UniqueIds([a, b])
      && ValidateUpdate(edit, [a, b], "b").Ok?
      && !NoOverlap(UpdateById([a, b], "b", EditPayload(edit)))
  {
    var a := Booking("a", "g", "t", Some("r"), None, 10, 12, 0, Reserved, "");
    var b := Booking("b", "g", "t", Some("r"), None, 20, 22, 0, Reserved, "");
    var edit := EditForm(Some(11), None, "r", 0, "");
    var after := UpdateById([a, b], "b", EditPayload(edit));
    assert after[0] == a && after[1].check_in_date == 11 && after[1].check_out_date == 22;
    assert StaysOverlap(after[0].check_in_date, after[0].check_out_date, after[1].check_in_date, after[1].check_out_date);
  }

  /** The update check with the blanks filled from the stored booking, as the
      edit dialog already does when it lists the rooms free for the edit:
      the date order and the overlap are checked on the stay the booking
      will have once the update is applied. */
  function ValidateUpdateFilled(edit: EditForm, bookings: seq<Booking>, current: Booking)
    : (r: Result<BookingUpdate, ValidationError>)
    ensures r.Ok? ==> r.value == EditPayload(edit)
    ensures r.Ok? ==> var m := ApplyUpdate(current, EditPayload(edit));
      && m.check_in_date < m.check_out_date
      && (m.room_id.Some? ==> forall i :: 0 <= i < |bookings| ==>
            !Conflicts(bookings[i], m.room_id.value, m.check_in_date, m.check_out_date, Some(current.id)))
  {
    var checkIn := edit.check_in_date.GetOr(current.check_in_date);
    var checkOut := edit.check_out_date.GetOr(current.check_out_date);
    var room := if edit.room_id != "" then Some(edit.room_id) else current.room_id;
    if checkIn >= checkOut then Err(CheckInNotBeforeCheckOut)
    else if room.Some? && HasOverlappingBooking(bookings, room.value, checkIn, checkOut, Some(current.id))
    then Err(RoomAlreadyBooked)
    else Ok(EditPayload(edit))
  }

  /** With the blanks filled in, every accepted edit keeps the rooms free of
      double bookings, whichever fields it leaves blank. */
  lemma {:induction false} FilledUpdatePreservesNoOverlap(edit: EditForm, bookings: seq<Booking>, k: nat)
    requires k < |bookings| && bookings[k].id != ""
    requires NoOverlap(bookings) && UniqueIds(bookings)
    requires ValidateUpdateFilled(edit, bookings, bookings[k]).Ok?
    ensures NoOverlap(UpdateById(bookings, bookings[k].id, EditPayload(edit)))
  {
    var id := bookings[k].id;
    var u := EditPayload(edit);
    var all := UpdateById(bookings, id, u);
    var m := ApplyUpdate(bookings[k], u);
    forall i | 0 <= i < |bookings| && i != k ensures all[i] == bookings[i] {
      if i < k { assert bookings[i].id != bookings[k].id; } else { assert bookings[k].id != bookings[i].id; }
    }
    forall i, j | 0 <= i < |all| && 0 <= j < |all| && i != j
      && all[i].room_id.Some? && all[i].room_id == all[j].room_id
      && BlocksRoom(all[i].status) && BlocksRoom(all[j].status)
      ensures !StaysOverlap(all[i].check_in_date, all[i].check_out_date, all[j].check_in_date, all[j].check_out_date)
    {
      if i == k {
        assert all[i] == m;
        assert !Conflicts(bookings[j], m.room_id.value, m.check_in_date, m.check_out_date, Some(id));
      } else if j == k {
        assert all[j] == m;
        assert !Conflicts(bookings[i], m.room_id.value, m.check_in_date, m.check_out_date, Some(id));
      }
    }
  }

  /** Re-submitting a blocking booking unchanged never conflicts with itself:
      the overlap check skips its own id. */
  lemma {:induction false} UnchangedEditPasses(bookings: seq<Booking>, k: nat)
    requires k < |bookings| && bookings[k].id != ""
    requires NoOverlap(bookings) && UniqueIds(bookings)
    requires BlocksRoom(bookings[k].status)
    requires bookings[k].check_in_date < bookings[k].check_out_date
    ensures ValidateUpdate(EditFormOf(bookings[k]), bookings, bookings[k].id).Ok?
  {
    var b := bookings[k];
    if b.room_id.Some? {
      forall j | 0 <= j < |bookings|
        ensures !Conflicts(bookings[j], b.room_id.value, b.check_in_date, b.check_out_date, Some(b.id))
      {
        if j != k && bookings[j].room_id == b.room_id && BlocksRoom(bookings[j].status) {
          assert !StaysOverlap(b.check_in_date, b.check_out_date, bookings[j].check_in_date, bookings[j].check_out_date);
        }
      }
    }
  }

  /** Saving the edit form unchanged leaves the booking as it was: the form
      filled from a booking sends back what the booking holds. */
  lemma UnchangedEditKeepsBooking(b: Booking)
    ensures ApplyUpdate(b, EditPayload(EditFormOf(b))) == b
  {
  }

  /** Cancelling never creates a double booking. */
  lemma {:induction false} CancelPreservesNoOverlap(bookings: seq<Booking>, id: string)
    requires NoOverlap(bookings)
    ensures NoOverlap(UpdateById(bookings, id, CancelPayload))
  {
    var all := UpdateById(bookings, id, CancelPayload);
    forall i, j | 0 <= i < |all| && 0 <= j < |all| && i != j
      && all[i].room_id.Some? && all[i].room_id == all[j].room_id
      && BlocksRoom(all[i].status) && BlocksRoom(all[j].status)
      ensures !StaysOverlap(all[i].check_in_date, all[i].check_out_date, all[j].check_in_date, all[j].check_out_date)
    {
      assert all[i] == bookings[i] && all[j] == bookings[j];
    }
  }

  /** Cancelling changes the status of the booking and nothing else. */
  lemma CancelOnlyChangesStatus(b: Booking)
    ensures ApplyUpdate(b, CancelPayload) == b.(status := Cancelled)
  {
  }

  class Page {
    var bookings: seq<Booking>
    var rooms: seq<Room>
    var guestTab: GuestTab
    var newGuest: GuestForm
    var newBooking: BookingForm
    var isSubmitting: bool
    var showNewBookingDialog: bool
    var selectedBooking: Option<Booking>
    var editBooking: EditForm
    var showEditDialog: bool

    /** The page after its first load. */
    constructor (bookings: seq<Booking>, rooms: seq<Room>)
      ensures this.bookings == bookings && this.rooms == rooms
      ensures guestTab == SearchTab && newGuest == EmptyGuestForm && newBooking == EmptyBookingForm
      ensures !isSubmitting && !showNewBookingDialog && !showEditDialog && selectedBooking == None
    {
      this.bookings := bookings;
      this.rooms := rooms;
      guestTab := SearchTab;
      newGuest := EmptyGuestForm;
      newBooking := EmptyBookingForm;
      isSubmitting := false;
      showNewBookingDialog := false;
      selectedBooking := None;
      editBooking := EditForm(None, None, "", 0, "");
      showEditDialog := false;
    }

    /** The operator fills in the new-booking dialog. */
    method FillNewBooking(tab: GuestTab, guest: GuestForm, form: BookingForm)
      modifies this
      ensures guestTab == tab && newGuest == guest && newBooking == form && showNewBookingDialog
      ensures bookings == old(bookings) && rooms == old(rooms) && selectedBooking == old(selectedBooking)
      ensures editBooking == old(editBooking) && showEditDialog == old(showEditDialog) && isSubmitting == old(isSubmitting)
    {
      guestTab, newGuest, newBooking := tab, guest, form;
      showNewBookingDialog := true;
    }

    /** `handleCreateBooking`: the validation chain, then the server call;
        on success the form is reset, the dialog closed and the new booking
        is in the list. `newId` and `newGuestId` are the ids the backend assigns. */
    method HandleCreateBooking(today: Day, newId: string, newGuestId: string, serverOk: bool) returns (outcome: Outcome)
      modifies this
      ensures var v := ValidateCreate(old(guestTab), old(newGuest), old(newBooking), old(bookings), today);
        v.Err? ==> outcome == Rejected(v.error)
      ensures var v := ValidateCreate(old(guestTab), old(newGuest), old(newBooking), old(bookings), today);
        v.Ok? ==> outcome == (if serverOk then Saved else ServerFailed)
      ensures outcome != Saved ==> bookings == old(bookings) && newBooking == old(newBooking)
      ensures outcome != Saved ==> newGuest == old(newGuest) && guestTab == old(guestTab)
      ensures outcome != Saved ==> showNewBookingDialog == old(showNewBookingDialog)
      ensures var v := ValidateCreate(old(guestTab), old(newGuest), old(newBooking), old(bookings), today);
        outcome == Saved ==> v.Ok? && bookings == old(bookings) + [CreatedBooking(v.value, old(rooms), newId, newGuestId)]
      ensures outcome == Saved ==> newBooking == EmptyBookingForm && newGuest == EmptyGuestForm && guestTab == SearchTab
      ensures outcome == Saved ==> !showNewBookingDialog
      ensures !isSubmitting && rooms == old(rooms) && selectedBooking == old(selectedBooking)
      ensures editBooking == old(editBooking) && showEditDialog == old(showEditDialog)
    {
      if guestTab == CreateTab {
        if newGuest.full_name == "" || newGuest.id_number == "" {
          isSubmitting := false;
          return Rejected(MissingGuestFields);
        }
      }
      var guestId: Option<string> := if guestTab == CreateTab || newBooking.guest_id == "" then None else Some(newBooking.guest_id);
      var details: Option<GuestForm> := if guestTab == CreateTab then Some(newGuest) else None;
      if (guestId.None? && details.None?) || newBooking.room_id == ""
         || newBooking.check_in_date.None? || newBooking.check_out_date.None? {
        isSubmitting := false;
        return Rejected(MissingRequiredFields);
      }
      var checkIn, checkOut := newBooking.check_in_date.value, newBooking.check_out_date.value;
      if checkIn < today {
        isSubmitting := false;
        return Rejected(PastCheckIn);
      }
      if checkIn >= checkOut {
        isSubmitting := false;
        return Rejected(CheckInNotBeforeCheckOut);
      }
      if HasOverlappingBooking(bookings, newBooking.room_id, checkIn, checkOut, None) {
        isSubmitting := false;
        return Rejected(RoomAlreadyBooked);
      }
      var payload := CreatePayload(guestId, details, newBooking.room_id, checkIn, checkOut,
                                   newBooking.total_amount, newBooking.notes);
      isSubmitting := true;
      if serverOk {
        bookings := bookings + [CreatedBooking(payload, rooms, newId, newGuestId)];
        newBooking := EmptyBookingForm;
        newGuest := EmptyGuestForm;
        guestTab := SearchTab;
        showNewBookingDialog := false;
        outcome := Saved;
      } else {
        outcome := ServerFailed;
      }
      isSubmitting := false;
    }

    /** `handleEditBooking`: select the booking and pre-fill the edit form. */
    method HandleEditBooking(b: Booking)
      modifies this
      ensures selectedBooking == Some(b) && editBooking == EditFormOf(b) && showEditDialog
      ensures bookings == old(bookings) && rooms == old(rooms) && newBooking == old(newBooking)
      ensures newGuest == old(newGuest) && guestTab == old(guestTab) && isSubmitting == old(isSubmitting)
      ensures showNewBookingDialog == old(showNewBookingDialog)
    {
      selectedBooking := Some(b);
      editBooking := EditFormOf(b);
      showEditDialog := true;
    }

    /** The operator changes the edit form. */
    method FillEdit(edit: EditForm)
      modifies this`editBooking
      ensures editBooking == edit
    {
      editBooking := edit;
    }

    /** `handleUpdateBooking`: nothing without a selected booking; otherwise
        the edit validation chain, then the server call, which on success
        closes the dialog, clears the selection and applies the update. */
    method HandleUpdateBooking(serverOk: bool) returns (outcome: Outcome)
      modifies this
      ensures old(selectedBooking).None? <==> outcome == NothingSelected
      ensures old(selectedBooking).Some? ==>
        var v := ValidateUpdate(old(editBooking), old(bookings), old(selectedBooking).value.id);
        v.Err? ==> outcome == Rejected(v.error)
      ensures old(selectedBooking).Some? ==>
        var v := ValidateUpdate(old(editBooking), old(bookings), old(selectedBooking).value.id);
        v.Ok? ==> outcome == (if serverOk then Saved else ServerFailed)
      ensures outcome != Saved ==> bookings == old(bookings) && selectedBooking == old(selectedBooking)
      ensures outcome != Saved ==> showEditDialog == old(showEditDialog)
      ensures outcome == Saved ==> old(selectedBooking).Some? && selectedBooking == None && !showEditDialog
      ensures outcome == Saved ==>
        old(selectedBooking).Some? && bookings == UpdateById(old(bookings), old(selectedBooking).value.id, EditPayload(old(editBooking)))
      ensures !isSubmitting && rooms == old(rooms) && editBooking == old(editBooking)
      ensures newBooking == old(newBooking) && newGuest == old(newGuest) && guestTab == old(guestTab)
      ensures showNewBookingDialog == old(showNewBookingDialog)
    {
      if selectedBooking.None? {
        isSubmitting := false;
        return NothingSelected;
      }
      var id := selectedBooking.value.id;
      if editBooking.check_in_date.Some? && editBooking.check_out_date.Some? {
        if editBooking.check_in_date.value >= editBooking.check_out_date.value {
          isSubmitting := false;
          return Rejected(CheckInNotBeforeCheckOut);
        }
      }
      if editBooking.room_id != "" && editBooking.check_in_date.Some? && editBooking.check_out_date.Some? {
        if HasOverlappingBooking(bookings, editBooking.room_id, editBooking.check_in_date.value,
                                 editBooking.check_out_date.value, Some(id)) {
          isSubmitting := false;
          return Rejected(RoomAlreadyBooked);
        }
      }
      isSubmitting := true;
      if serverOk {
        bookings := UpdateById(bookings, id, EditPayload(editBooking));
        showEditDialog := false;
        selectedBooking := None;
        outcome := Saved;
      } else {
        outcome := ServerFailed;
      }
      isSubmitting := false;
    }

    /** `handleCancelBooking`: sends only the cancelled status; on success
        that booking is cancelled and every other booking is untouched. */
    method HandleCancelBooking(id: string, serverOk: bool) returns (outcome: Outcome)
      modifies this`bookings
      ensures serverOk ==> outcome == Saved && bookings == UpdateById(old(bookings), id, CancelPayload)
      ensures !serverOk ==> outcome == ServerFailed && bookings == old(bookings)
    {
      if serverOk {
        bookings := UpdateById(bookings, id, CancelPayload);
        outcome := Saved;
      } else {
        outcome := ServerFailed;
      }
    }
  }
}
