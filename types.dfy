/** The records the dashboard exchanges with its backend. Calendar dates of
    a stay are day numbers; an empty string stands for a missing optional
    text (the pages test such fields for truthiness, so '' and undefined
    behave alike). */
module Types {
  import opened Seqs

  type Day = int

  datatype UserRole = Admin | Manager | Receptionist | Housekeeping | Kitchen | Auditor
  datatype RoomStatus = Available | Occupied | Cleaning | Maintenance
  datatype BookingStatus = Reserved | Confirmed | CheckedIn | CheckedOut | Cancelled | Expired
  datatype PaymentStatus = Pending | Completed | Refunded | Failed

  datatype User = User(
    id: string,
    username: string,
    full_name: string,
    role: UserRole,
    is_active: bool)

  datatype RoomType = RoomType(
    id: string,
    name: string,
    base_price: int,
    max_occupancy: int,
    amenities: seq<string>,
    images: seq<string>)

  datatype Room = Room(
    id: string,
    room_number: string,
    room_type_id: string,
    status: RoomStatus)

  datatype Guest = Guest(
    id: string,
    full_name: string,
    email: Option<string>,
    phone: Option<string>,
    id_type: Option<string>,
    id_number: Option<string>,
    address: Option<string>)

  /** The new-guest form (`GuestCreate`); blank inputs are empty strings. */
  datatype GuestForm = GuestForm(
    full_name: string,
    email: string,
    phone: string,
    id_type: string,
    id_number: string,
    address: string)

  /** A reservation. `room_type_id` is "" when the record does not carry it;
      `room` is the embedded room object some responses include. */
  datatype Booking = Booking(
    id: string,
    guest_id: string,
    room_type_id: string,
    room_id: Option<string>,
    room: Option<Room>,
    check_in_date: Day,
    check_out_date: Day,
    total_amount: int,
    status: BookingStatus,
    notes: string)

  /** A payment. `processed_at` is the ISO timestamp text; a missing receipt
      number is None. */
  datatype Payment = Payment(
    id: string,
    booking_id: string,
    amount: int,
    status: PaymentStatus,
    processed_at: string,
    receipt_number: Option<string>)

  /** The partial update sent to the backend: absent fields are not sent. */
  datatype BookingUpdate = BookingUpdate(
    room_id: Option<string>,
    check_in_date: Option<Day>,
    check_out_date: Option<Day>,
    total_amount: Option<int>,
    status: Option<BookingStatus>,
    notes: Option<string>)

  /** The backend merges an update into the stored booking field by field. */
  function ApplyUpdate(b: Booking, u: BookingUpdate): (r: Booking)
    ensures r.id == b.id && r.guest_id == b.guest_id && r.room_type_id == b.room_type_id
    ensures u.room_id.Some? ==> r.room_id == u.room_id
    ensures u.room_id.None? ==> r.room_id == b.room_id
    ensures r.check_in_date == u.check_in_date.GetOr(b.check_in_date)
    ensures r.check_out_date == u.check_out_date.GetOr(b.check_out_date)
    ensures r.status == u.status.GetOr(b.status)
    ensures r.total_amount == u.total_amount.GetOr(b.total_amount) && r.notes == u.notes.GetOr(b.notes)
    ensures r.room == b.room
  {
    b.(room_id := if u.room_id.Some? then u.room_id else b.room_id,
       check_in_date := u.check_in_date.GetOr(b.check_in_date),
       check_out_date := u.check_out_date.GetOr(b.check_out_date),
       total_amount := u.total_amount.GetOr(b.total_amount),
       status := u.status.GetOr(b.status),
       notes := u.notes.GetOr(b.notes))
  }
}
