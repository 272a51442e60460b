/** The check-in wizard: which room type a booking is for, which rooms may
    be assigned to it, the three-step room → guest → key sequence with its
    forward guards, and the payload sent when the guest is checked in. */
module CheckIn {
  import opened Seqs
  import opened Types
  import opened Bookings

  /** What the check-in endpoint receives; absent optional texts are not sent. */
  datatype BookingCheckIn = BookingCheckIn(
    booking_id: string,
    room_id: string,
    guest_id_type: Option<string>,
    guest_id_number: Option<string>,
    key_card_id: Option<string>)

  /** The room type of a booking: its own `room_type_id`, else the type on
      its embedded room, else the type of the room its `room_id` names in the
      room list. An empty text counts as missing at every level. */
  function ResolveRoomType(b: Booking, allRooms: seq<Room>): (r: Option<string>)
    ensures r.Some? ==> r.value != ""
    ensures b.room_type_id != "" ==> r == Some(b.room_type_id)
    ensures b.room_type_id == "" && b.room.Some? && b.room.value.room_type_id != "" ==> r == Some(b.room.value.room_type_id)
    ensures b.room_type_id == "" && (b.room.None? || b.room.value.room_type_id == "")
            && b.room_id.Some? && b.room_id.value != ""
            && FindRoom(allRooms, b.room_id).Some? && FindRoom(allRooms, b.room_id).value.room_type_id != ""
            ==> r == Some(FindRoom(allRooms, b.room_id).value.room_type_id)
    ensures r.Some? && r.value != b.room_type_id && (b.room.None? || r.value != b.room.value.room_type_id) ==>
      b.room_id.Some? && exists i :: 0 <= i < |allRooms| && allRooms[i].id == b.room_id.value && allRooms[i].room_type_id == r.value
    ensures r.None? <==> b.room_type_id == "" && (b.room.None? || b.room.value.room_type_id == "")
                         && (b.room_id.None? || b.room_id.value == ""
                             || FindRoom(allRooms, b.room_id).None? || FindRoom(allRooms, b.room_id).value.room_type_id == "")
  {
    if b.room_type_id != "" then Some(b.room_type_id)
    else if b.room.Some? && b.room.value.room_type_id != "" then Some(b.room.value.room_type_id)
    else if b.room_id.Some? && b.room_id.value != "" then
      var found := FindRoom(allRooms, b.room_id);
      if found.Some? && found.value.room_type_id != "" then Some(found.value.room_type_id) else None
    else None
  }

  /** Soft allocation: a booking that carries its room type resolves to it
      without any room assigned and whatever the room list holds. */
  lemma TypedBookingIgnoresRooms(b: Booking, rooms1: seq<Room>, rooms2: seq<Room>)
    requires b.room_type_id != ""
    ensures ResolveRoomType(b, rooms1) == ResolveRoomType(b, rooms2) == Some(b.room_type_id)
  {
  }

  /** An untyped booking whose room id names no listed room, and which has no
      embedded typed room, cannot be resolved. */
  lemma {:induction false} UnknownRoomUnresolved(b: Booking, allRooms: seq<Room>)
    requires b.room_type_id == "" && (b.room.None? || b.room.value.room_type_id == "")
    requires forall i :: 0 <= i < |allRooms| ==> b.room_id != Some(allRooms[i].id)
    ensures ResolveRoomType(b, allRooms).None?
  {
    assert FindRoom(allRooms, b.room_id).None?;
  }

  predicate IsCandidate(room: Room, typeId: string) {
    room.room_type_id == typeId && room.status == Available
  }

  /** The rooms offered for assignment: available rooms of the resolved type,
      in list order; none when the type is unresolved. */
  function CandidateRooms(allRooms: seq<Room>, typeId: Option<string>): (r: seq<Room>)
    ensures typeId.None? ==> r == []
    ensures forall i :: 0 <= i < |r| ==> r[i] in allRooms && typeId.Some? && IsCandidate(r[i], typeId.value)
    ensures typeId.Some? ==> forall i :: 0 <= i < |allRooms| && IsCandidate(allRooms[i], typeId.value) ==> allRooms[i] in r
  {
    if typeId.None? then [] else Filter(allRooms, (room: Room) => IsCandidate(room, typeId.value))
  }

  /** Occupied, cleaning and maintenance rooms are never offered. */
  lemma NoUnavailableRoomOffered(allRooms: seq<Room>, typeId: Option<string>, i: nat)
    requires i < |CandidateRooms(allRooms, typeId)|
    ensures CandidateRooms(allRooms, typeId)[i].status !in {Occupied, Cleaning, Maintenance}
  {
  }

  /** Candidates keep list order: those of a concatenated list are those of
      each part, one after the other. */
  lemma CandidatesKeepOrder(a: seq<Room>, b: seq<Room>, typeId: Option<string>)
    ensures CandidateRooms(a + b, typeId) == CandidateRooms(a, typeId) + CandidateRooms(b, typeId)
  {
    if typeId.Some? {
      FilterAppend(a, b, (room: Room) => IsCandidate(room, typeId.value));
    }
  }

  /** A worked case: a deluxe booking without a room, with deluxe room D1
      available, deluxe room D2 occupied and standard room S1 available, is
      offered D1 alone. */
  lemma PooledBookingExample()
    ensures var d1 := Room("d1", "D1", "deluxe", Available);
      var d2 := Room("d2", "D2", "deluxe", Occupied);
      var s1 := Room("s1", "S1", "standard", Available);
      var b := Booking("b1", "g1", "deluxe", None, None, 10, 12, 300, Reserved, "");
      CandidateRooms([d1, d2, s1], ResolveRoomType(b, [d1, d2, s1])) == [d1]
  {
    var d1 := Room("d1", "D1", "deluxe", Available);
    var d2 := Room("d2", "D2", "deluxe", Occupied);
    var s1 := Room("s1", "S1", "standard", Available);
    var p := (room: Room) => IsCandidate(room, "deluxe");
    assert [d1, d2, s1][1..] == [d2, s1];
    assert [d2, s1][1..] == [s1];
    assert Filter([s1], p) == [];
    assert Filter([d2, s1], p) == [];
    assert Filter([d1, d2, s1], p) == [d1];
  }

  /** `isMissingGuestId`: no guest, or a guest without an id number or id type. */
  predicate IsMissingGuestId(guest: Option<Guest>)
    ensures !IsMissingGuestId(guest) ==> guest.Some? && guest.value.id_number.Some? && guest.value.id_type.Some?
  {
    guest.None? || guest.value.id_number.GetOr("") == "" || guest.value.id_type.GetOr("") == ""
  }

  datatype Step = RoomStep | GuestStep | KeyStep
  datatype StepState = Completed | Current | Upcoming

  function StepIndex(s: Step): nat {
    match s
    case RoomStep => 0
    case GuestStep => 1
    case KeyStep => 2
  }

  /** `canProceedToNextStep` */
  predicate CanProceed(step: Step, selectedRoomId: string, guestIdType: string, guestIdNumber: string,
                       missingGuestId: bool)
    ensures step != RoomStep && !missingGuestId ==> CanProceed(step, selectedRoomId, guestIdType, guestIdNumber, missingGuestId)
    ensures step == RoomStep ==> (CanProceed(step, selectedRoomId, guestIdType, guestIdNumber, missingGuestId) <==> selectedRoomId != "")
  {
    match step
    case RoomStep => selectedRoomId != ""
    case GuestStep => missingGuestId ==> guestIdType != "" && guestIdNumber != ""
    case KeyStep => true
  }

  /** `handleNext`: forward one step when allowed; the key step is the last. */
  function NextStep(step: Step, canProceed: bool): (r: Step)
    ensures !canProceed || step == KeyStep ==> r == step
    ensures canProceed && step != KeyStep ==> StepIndex(r) == StepIndex(step) + 1
  {
    if !canProceed then step
    else match step
      case RoomStep => GuestStep
      case GuestStep => KeyStep
      case KeyStep => KeyStep
  }

  /** `handleBack`: back one step; nothing happens at the room step. */
  function BackStep(step: Step): (r: Step)
    ensures step == RoomStep ==> r == RoomStep
    ensures step != RoomStep ==> StepIndex(r) + 1 == StepIndex(step)
  {
    match step
    case RoomStep => RoomStep
    case GuestStep => RoomStep
    case KeyStep => GuestStep
  }

  /** Back undoes an allowed forward move, and forward (when allowed) undoes back. */
  lemma {:induction false} NextBackRoundTrip(step: Step)
    ensures step != KeyStep ==> BackStep(NextStep(step, true)) == step
    ensures step != RoomStep ==> NextStep(BackStep(step), true) == step
  {
    match step
    case RoomStep => assert NextStep(step, true) == GuestStep;
    case GuestStep => assert NextStep(step, true) == KeyStep;
    case KeyStep => assert BackStep(step) == GuestStep;
  }

  /** `getStepStatus`: steps before the current one are completed, the
      current one is current, later ones are upcoming. */
  function StepStatus(current: Step, s: Step): (r: StepState)
    ensures r == Current <==> s == current
    ensures r == StepState.Completed <==> StepIndex(s) < StepIndex(current)
    ensures r == Upcoming <==> StepIndex(s) > StepIndex(current)
  {
    if StepIndex(s) < StepIndex(current) then StepState.Completed
    else if StepIndex(s) == StepIndex(current) then Current
    else Upcoming
  }

  /** Exactly one of the three steps is shown as current. */
  lemma ExactlyOneCurrent(current: Step)
    ensures |set s | s in [RoomStep, GuestStep, KeyStep] && StepStatus(current, s) == Current| == 1
  {
    var cur := set s | s in [RoomStep, GuestStep, KeyStep] && StepStatus(current, s) == Current;
    assert cur == {current};
  }

  /** `x || undefined` for an optional text field. */
  function OptionalText(s: string): (r: Option<string>)
    ensures r.GetOr("") == s
    ensures r.Some? ==> r.value != ""
  {
    if s == "" then None else Some(s)
  }

  datatype SubmitOutcome = NoBooking | NoRoomSelected | GuestIdRequired | Send(payload: BookingCheckIn)

  /** The checks of `handleSubmit`, in order, and the payload it sends. */
  function Submission(booking: Option<Booking>, guest: Option<Guest>, selectedRoomId: string,
                      guestIdType: string, guestIdNumber: string, keyCardId: string): (r: SubmitOutcome)
    ensures r.Send? <==> booking.Some? && selectedRoomId != ""
                         && (IsMissingGuestId(guest) ==> guestIdType != "" && guestIdNumber != "")
    ensures r.Send? ==> r.payload.booking_id == booking.value.id && r.payload.room_id == selectedRoomId
    ensures r.Send? ==> r.payload.guest_id_type.GetOr("") == guestIdType && r.payload.guest_id_number.GetOr("") == guestIdNumber
    ensures r.Send? ==> r.payload.key_card_id.GetOr("") == keyCardId
    ensures r.Send? && IsMissingGuestId(guest) ==> r.payload.guest_id_type.Some? && r.payload.guest_id_number.Some?
  {
    if booking.None? then NoBooking
    else if selectedRoomId == "" then NoRoomSelected
    else if IsMissingGuestId(guest) && (guestIdType == "" || guestIdNumber == "") then GuestIdRequired
    else Send(BookingCheckIn(booking.value.id, selectedRoomId, OptionalText(guestIdType), OptionalText(guestIdNumber),
                             OptionalText(keyCardId)))
  }

  /** The wizard's forward guards are the submit checks: the room step asks
      for what submit reports as a missing room, the guest step for what it
      reports as a missing id, so a booking passing both guards is sent. */
  lemma GuardsMatchSubmit(b: Booking, guest: Option<Guest>, roomId: string, idType: string, idNumber: string,
                          key: string)
    ensures !CanProceed(RoomStep, roomId, idType, idNumber, IsMissingGuestId(guest))
            <==> Submission(Some(b), guest, roomId, idType, idNumber, key) == NoRoomSelected
    ensures CanProceed(RoomStep, roomId, idType, idNumber, IsMissingGuestId(guest))
            && CanProceed(GuestStep, roomId, idType, idNumber, IsMissingGuestId(guest))
            <==> Submission(Some(b), guest, roomId, idType, idNumber, key).Send?
  {
  }

  /** The check-in dialog's state. The booking and guest are the dialog's
      inputs; the rest is its own form state. */
  class CheckInModal {
    var booking: Option<Booking>
    var guest: Option<Guest>
    var step: Step
    var selectedRoomId: string
    var guestIdType: string
    var guestIdNumber: string
    var keyCardId: string
    var availableRooms: seq<Room>

    /** The room select lists exactly the rooms on offer. */
    predicate Offered(roomId: string)
      reads this`availableRooms
    {
      exists i :: 0 <= i < |availableRooms| && availableRooms[i].id == roomId
    }

    /** Every room on offer was available when the list was fetched. */
    predicate OffersAvailableRoomsOnly()
      reads this`availableRooms
    {
      forall i :: 0 <= i < |availableRooms| ==> availableRooms[i].status == Available
    }

    /** The wizard never gets ahead of its guards: a chosen room is one on
        offer, past the room step a room is chosen, and at the key step the
        guest's identity is complete. */
    predicate Progressed()
      reads this
    {
      && (selectedRoomId == "" || Offered(selectedRoomId))
      && (step != RoomStep ==> selectedRoomId != "")
      && (step == KeyStep ==> CanProceed(GuestStep, selectedRoomId, guestIdType, guestIdNumber, IsMissingGuestId(guest)))
    }

    constructor ()
      ensures booking == None && guest == None && step == RoomStep && availableRooms == []
      ensures selectedRoomId == "" && guestIdType == "" && guestIdNumber == "" && keyCardId == ""
      ensures Progressed() && OffersAvailableRoomsOnly()
    {
      booking, guest := None, None;
      step := RoomStep;
      selectedRoomId, guestIdType, guestIdNumber, keyCardId := "", "", "", "";
      availableRooms := [];
    }

    /** `fetchAvailableRooms`. `allRooms` is the room list or None when that
        request fails; `typesOk` says whether the room-type request succeeds.
        A failed request leaves the offered rooms as they were. The rooms are
        fetched only right after the form is reset, with no room chosen. */
    method FetchAvailableRooms(allRooms: Option<seq<Room>>, typesOk: bool)
      requires selectedRoomId == ""
      modifies this`availableRooms
      ensures booking.None? || allRooms.None? ==> availableRooms == old(availableRooms)
      ensures booking.Some? && allRooms.Some? && ResolveRoomType(booking.value, allRooms.value).None? ==>
        availableRooms == []
      ensures booking.Some? && allRooms.Some? && ResolveRoomType(booking.value, allRooms.value).Some? ==>
        availableRooms == if typesOk then CandidateRooms(allRooms.value, ResolveRoomType(booking.value, allRooms.value))
                          else old(availableRooms)
      ensures old(Progressed()) ==> Progressed()
      ensures old(OffersAvailableRoomsOnly()) ==> OffersAvailableRoomsOnly()
    {
      if booking.None? || allRooms.None? {
        return;
      }
      var typeId := ResolveRoomType(booking.value, allRooms.value);
      if typeId.None? {
        availableRooms := [];
        return;
      }
      if typesOk {
        availableRooms := CandidateRooms(allRooms.value, typeId);
      }
    }

    /** The dialog opens on a booking: the form is reset to the room step
        with the guest's id fields on file, and the rooms are fetched. With no
        booking nothing is reset. */
    method Open(b: Option<Booking>, g: Option<Guest>, allRooms: Option<seq<Room>>, typesOk: bool)
      modifies this
      ensures booking == b && guest == g
      ensures b.None? ==> step == old(step) && selectedRoomId == old(selectedRoomId) && keyCardId == old(keyCardId)
      ensures b.None? ==> guestIdType == old(guestIdType) && guestIdNumber == old(guestIdNumber)
      ensures b.None? ==> availableRooms == old(availableRooms)
      ensures b.Some? ==> step == RoomStep && selectedRoomId == "" && keyCardId == ""
      ensures b.Some? && g.Some? ==> guestIdType == g.value.id_type.GetOr("") && guestIdNumber == g.value.id_number.GetOr("")
      ensures b.Some? && g.None? ==> guestIdType == "" && guestIdNumber == ""
      ensures b.Some? && allRooms.Some? && typesOk ==>
        availableRooms == CandidateRooms(allRooms.value, ResolveRoomType(b.value, allRooms.value))
      ensures b.Some? ==> Progressed()
      ensures old(OffersAvailableRoomsOnly()) ==> OffersAvailableRoomsOnly()
    {
      booking, guest := b, g;
      if b.Some? {
        step := RoomStep;
        selectedRoomId := "";
        guestIdType := if g.Some? then g.value.id_type.GetOr("") else "";
        guestIdNumber := if g.Some? then g.value.id_number.GetOr("") else "";
        keyCardId := "";
        FetchAvailableRooms(allRooms, typesOk);
      }
    }

    /** Choosing a room; the room select is shown only at the room step and
        lists only the rooms on offer (or is cleared). */
    method SelectRoom(roomId: string)
      requires step == RoomStep
      requires roomId == "" || Offered(roomId)
      modifies this`selectedRoomId
      ensures selectedRoomId == roomId
      ensures old(Progressed()) ==> Progressed()
    {
      selectedRoomId := roomId;
    }

    /** Entering the guest's id; the inputs are shown only at the guest step. */
    method EnterGuestId(idType: string, idNumber: string)
      requires step == GuestStep
      modifies this`guestIdType, this`guestIdNumber
      ensures guestIdType == idType && guestIdNumber == idNumber
      ensures old(Progressed()) ==> Progressed()
    {
      guestIdType, guestIdNumber := idType, idNumber;
    }

    /** Entering the key card id; the input is shown only at the key step. */
    method EnterKeyCard(key: string)
      requires step == KeyStep
      modifies this`keyCardId
      ensures keyCardId == key
      ensures old(Progressed()) ==> Progressed()
    {
      keyCardId := key;
    }

    /** `handleNext`: forward only when the current step may proceed. */
    method HandleNext()
      modifies this`step
      ensures step == NextStep(old(step), CanProceed(old(step), selectedRoomId, guestIdType, guestIdNumber, IsMissingGuestId(guest)))
      ensures old(Progressed()) ==> Progressed()
    {
      if !CanProceed(step, selectedRoomId, guestIdType, guestIdNumber, IsMissingGuestId(guest)) {
        return;
      }
      if step == RoomStep {
        step := GuestStep;
      } else if step == GuestStep {
        step := KeyStep;
      }
    }

    /** `handleBack` */
    method HandleBack()
      modifies this`step
      ensures step == BackStep(old(step))
      ensures old(Progressed()) ==> Progressed()
    {
      if step == KeyStep {
        step := GuestStep;
      } else if step == GuestStep {
        step := RoomStep;
      }
    }

    /** `handleSubmit`: the checks and the payload. Once the wizard has
        reached the key step through its guards, submitting always sends. */
    method HandleSubmit() returns (r: SubmitOutcome)
      ensures r == Submission(booking, guest, selectedRoomId, guestIdType, guestIdNumber, keyCardId)
      ensures Progressed() && step == KeyStep && booking.Some? ==> r.Send?
      ensures Progressed() && r.Send? ==> Offered(r.payload.room_id)
      ensures Progressed() && OffersAvailableRoomsOnly() && r.Send? ==>
        exists i :: 0 <= i < |availableRooms| && availableRooms[i].id == r.payload.room_id
                    && availableRooms[i].status == Available
    {
      if booking.None? {
        return NoBooking;
      }
      if selectedRoomId == "" {
        return NoRoomSelected;
      }
      if IsMissingGuestId(guest) && (guestIdType == "" || guestIdNumber == "") {
        return GuestIdRequired;
      }
      r := Send(BookingCheckIn(booking.value.id, selectedRoomId, OptionalText(guestIdType), OptionalText(guestIdNumber),
                               OptionalText(keyCardId)));
    }
  }
}
