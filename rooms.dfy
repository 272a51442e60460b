/** The rooms page: the room and room-type forms with their validation,
    the amenity and image list edits of the room-type form, the room
    search filter and the status counters. */
module Rooms {
  import opened Seqs
  import opened Text
  import opened Types

  datatype RoomForm = RoomForm(room_number: string, room_type_id: string, status: RoomStatus)

  datatype RoomTypeForm = RoomTypeForm(
    name: string,
    base_price: int,
    max_occupancy: int,
    amenities: seq<string>,
    images: seq<string>)

  const EmptyRoomForm := RoomForm("", "", Available)
  const EmptyRoomTypeForm := RoomTypeForm("", 0, 2, [], [])

  /** A save request: a create, or an update of the record with that id. */
  datatype Request<F> = Create(form: F) | Update(id: string, form: F)

  /** `handleSaveRoom`: nothing is sent without a room number and a room
      type; otherwise an update when a room is being edited, else a create.
      An empty editing id means no room is being edited. */
  function RoomSaveRequest(form: RoomForm, editingRoomId: string): (r: Option<Request<RoomForm>>)
    ensures r.Some? <==> form.room_number != "" && form.room_type_id != ""
    ensures r.Some? ==> r.value.form == form
    ensures r.Some? ==> (r.value.Update? <==> editingRoomId != "")
    ensures r.Some? && r.value.Update? ==> r.value.id == editingRoomId
  {
    if form.room_number == "" || form.room_type_id == "" then None
    else if editingRoomId != "" then Some(Update(editingRoomId, form))
    else Some(Create(form))
  }

  /** `handleSaveRoomType`: nothing is sent without a name or with a zero
      base price (`!0` is true in JavaScript; a negative price passes). */
  function RoomTypeSaveRequest(form: RoomTypeForm, editingRoomTypeId: string): (r: Option<Request<RoomTypeForm>>)
    ensures r.Some? <==> form.name != "" && form.base_price != 0
    ensures r.Some? ==> r.value.form == form
    ensures r.Some? ==> (r.value.Update? <==> editingRoomTypeId != "")
    ensures r.Some? && r.value.Update? ==> r.value.id == editingRoomTypeId
  {
    if form.name == "" || form.base_price == 0 then None
    else if editingRoomTypeId != "" then Some(Update(editingRoomTypeId, form))
    else Some(Create(form))
  }

  /** `toggleTypeAmenity` on a list: a present amenity is removed (every
      copy), an absent one is appended at the end. */
  function Toggle(list: seq<string>, amenity: string): (r: seq<string>)
    ensures amenity in r <==> amenity !in list
    ensures amenity !in list ==> r == list + [amenity]
    ensures forall i :: 0 <= i < |list| && list[i] != amenity ==> list[i] in r
    ensures forall i :: 0 <= i < |r| && r[i] != amenity ==> r[i] in list
  {
    if amenity in list then RemoveAll(list, amenity) else list + [amenity]
  }

  /** Toggling an absent amenity twice restores the original list. */
  lemma ToggleTwiceRestores(list: seq<string>, amenity: string)
    requires amenity !in list
    ensures Toggle(Toggle(list, amenity), amenity) == list
  {
    RemoveAllAppendAbsent(list, amenity);
  }

  /** Toggling twice always restores membership, for every amenity. */
  lemma ToggleTwiceMembership(list: seq<string>, amenity: string, other: string)
    ensures other in Toggle(Toggle(list, amenity), amenity) <==> other in list
  {
    var once := Toggle(list, amenity);
    if other != amenity && other in list {
      var i :| 0 <= i < |list| && list[i] == other;
      assert other in once;
    }
    if other != amenity && other in Toggle(once, amenity) {
      var i :| 0 <= i < |Toggle(once, amenity)| && Toggle(once, amenity)[i] == other;
      assert other in once;
    }
  }

  /** The room search: `room_number` contains the term ignoring case, and
      the status filter (None is 'all') matches. */
  predicate RoomMatches(room: Room, searchTerm: string, statusFilter: Option<RoomStatus>) {
    ContainsIgnoreCase(room.room_number, searchTerm) && (statusFilter.None? || room.status == statusFilter.value)
  }

  function FilteredRooms(rooms: seq<Room>, searchTerm: string, statusFilter: Option<RoomStatus>): (r: seq<Room>)
    ensures forall i :: 0 <= i < |r| ==> r[i] in rooms && RoomMatches(r[i], searchTerm, statusFilter)
    ensures forall i :: 0 <= i < |rooms| && RoomMatches(rooms[i], searchTerm, statusFilter) ==> rooms[i] in r
  {
    Filter(rooms, (room: Room) => RoomMatches(room, searchTerm, statusFilter))
  }

  /** With an empty search and no status filter every room is listed. */
  lemma UnfilteredListsAll(rooms: seq<Room>)
    ensures FilteredRooms(rooms, "", None) == rooms
  {
    forall i | 0 <= i < |rooms| ensures RoomMatches(rooms[i], "", None) {
      assert ToLower("") == "";
      ContainsEmpty(ToLower(rooms[i].room_number));
    }
    FilterAll(rooms, (room: Room) => RoomMatches(room, "", None));
  }

  /** The number of rooms in one status. */
  function StatusCount(rooms: seq<Room>, s: RoomStatus): (n: nat)
    ensures n <= |rooms|
  {
    Count(rooms, (room: Room) => room.status == s)
  }

  /** The four status counters add up to the number of rooms. */
  lemma {:induction false} StatusCountsSum(rooms: seq<Room>)
    ensures StatusCount(rooms, Available) + StatusCount(rooms, Occupied)
          + StatusCount(rooms, Cleaning) + StatusCount(rooms, Maintenance) == |rooms|
    decreases |rooms|
  {
    if rooms != [] {
      StatusCountsSum(rooms[1..]);
    }
  }

  class RoomsPage {
    var newRoom: RoomForm
    var editingRoomId: string
    var showNewRoomDialog: bool
    var newRoomType: RoomTypeForm
    var newImageUrl: string
    var editingRoomTypeId: string
    var showNewTypeDialog: bool

    constructor ()
      ensures newRoom == EmptyRoomForm && editingRoomId == "" && !showNewRoomDialog
      ensures newRoomType == EmptyRoomTypeForm && newImageUrl == "" && editingRoomTypeId == "" && !showNewTypeDialog
    {
      newRoom, editingRoomId, showNewRoomDialog := EmptyRoomForm, "", false;
      newRoomType, newImageUrl, editingRoomTypeId, showNewTypeDialog := EmptyRoomTypeForm, "", "", false;
    }

    /** `handleSaveRoom`: returns what is sent (None when validation fails).
        After a successful save the form is reset and the dialog closed;
        otherwise the form state is unchanged. */
    method HandleSaveRoom(serverOk: bool) returns (sent: Option<Request<RoomForm>>)
      modifies this`newRoom, this`editingRoomId, this`showNewRoomDialog
      ensures sent == RoomSaveRequest(old(newRoom), old(editingRoomId))
      ensures sent.Some? && serverOk ==> newRoom == EmptyRoomForm && editingRoomId == "" && !showNewRoomDialog
      ensures sent.None? || !serverOk ==>
        newRoom == old(newRoom) && editingRoomId == old(editingRoomId) && showNewRoomDialog == old(showNewRoomDialog)
    {
      if newRoom.room_number == "" || newRoom.room_type_id == "" {
        return None;
      }
      if editingRoomId != "" {
        sent := Some(Update(editingRoomId, newRoom));
      } else {
        sent := Some(Create(newRoom));
      }
      if serverOk {
        newRoom := EmptyRoomForm;
        editingRoomId := "";
        showNewRoomDialog := false;
      }
    }

    /** `handleEditRoom`: the form is filled from the room and the dialog opened. */
    method HandleEditRoom(room: Room)
      modifies this`newRoom, this`editingRoomId, this`showNewRoomDialog
      ensures editingRoomId == room.id && showNewRoomDialog
      ensures newRoom == RoomForm(room.room_number, room.room_type_id, room.status)
    {
      editingRoomId := room.id;
      newRoom := RoomForm(room.room_number, room.room_type_id, room.status);
      showNewRoomDialog := true;
    }

    /** `handleDialogChange`: closing clears the editing id and the form;
        opening touches nothing else. */
    method HandleDialogChange(open: bool)
      modifies this`newRoom, this`editingRoomId, this`showNewRoomDialog
      ensures showNewRoomDialog == open
      ensures !open ==> editingRoomId == "" && newRoom == EmptyRoomForm
      ensures open ==> editingRoomId == old(editingRoomId) && newRoom == old(newRoom)
    {
      showNewRoomDialog := open;
      if !open {
        editingRoomId := "";
        newRoom := EmptyRoomForm;
      }
    }

    /** `toggleTypeAmenity` */
    method ToggleTypeAmenity(amenity: string)
      modifies this`newRoomType
      ensures newRoomType == old(newRoomType).(amenities := Toggle(old(newRoomType.amenities), amenity))
    {
      var current := newRoomType.amenities;
      if amenity in current {
        newRoomType := newRoomType.(amenities := RemoveAll(current, amenity));
      } else {
        newRoomType := newRoomType.(amenities := current + [amenity]);
      }
    }

    /** `addTypeImageUrl`: the trimmed URL is appended and the input cleared,
        unless the input is blank, in which case nothing changes. */
    method AddTypeImageUrl()
      modifies this`newRoomType, this`newImageUrl
      ensures Trim(old(newImageUrl)) != "" ==>
        newRoomType == old(newRoomType).(images := old(newRoomType.images) + [Trim(old(newImageUrl))]) && newImageUrl == ""
      ensures Trim(old(newImageUrl)) == "" ==> newRoomType == old(newRoomType) && newImageUrl == old(newImageUrl)
    {
      var url := Trim(newImageUrl);
      if url != "" {
        newRoomType := newRoomType.(images := newRoomType.images + [url]);
        newImageUrl := "";
      }
    }

    /** `removeTypeImage(index)`: exactly that image goes; an index outside
        the list removes nothing. */
    method RemoveTypeImage(index: int)
      modifies this`newRoomType
      ensures newRoomType == old(newRoomType).(images := RemoveAt(old(newRoomType.images), index))
      ensures 0 <= index < |old(newRoomType.images)| ==> |newRoomType.images| + 1 == |old(newRoomType.images)|
    {
      newRoomType := newRoomType.(images := RemoveAt(newRoomType.images, index));
    }

    /** `handleSaveRoomType`: returns what is sent. After a successful save
        the form, the image input and the editing id are reset and the
        dialog closed; otherwise nothing changes. */
    method HandleSaveRoomType(serverOk: bool) returns (sent: Option<Request<RoomTypeForm>>)
      modifies this`newRoomType, this`newImageUrl, this`editingRoomTypeId, this`showNewTypeDialog
      ensures sent == RoomTypeSaveRequest(old(newRoomType), old(editingRoomTypeId))
      ensures sent.Some? && serverOk ==>
        newRoomType == EmptyRoomTypeForm && newImageUrl == "" && editingRoomTypeId == "" && !showNewTypeDialog
      ensures sent.None? || !serverOk ==> newRoomType == old(newRoomType) && newImageUrl == old(newImageUrl)
      ensures sent.None? || !serverOk ==>
        editingRoomTypeId == old(editingRoomTypeId) && showNewTypeDialog == old(showNewTypeDialog)
    {
      if newRoomType.name == "" || newRoomType.base_price == 0 {
        return None;
      }
      if editingRoomTypeId != "" {
        sent := Some(Update(editingRoomTypeId, newRoomType));
      } else {
        sent := Some(Create(newRoomType));
      }
      if serverOk {
        showNewTypeDialog := false;
        editingRoomTypeId := "";
        newRoomType := EmptyRoomTypeForm;
        newImageUrl := "";
      }
    }

    /** `handleEditRoomType`: the form is filled from the type and the dialog opened. */
    method HandleEditRoomType(t: RoomType)
      modifies this`newRoomType, this`editingRoomTypeId, this`showNewTypeDialog
      ensures editingRoomTypeId == t.id && showNewTypeDialog
      ensures newRoomType == RoomTypeForm(t.name, t.base_price, t.max_occupancy, t.amenities, t.images)
    {
      editingRoomTypeId := t.id;
      newRoomType := RoomTypeForm(t.name, t.base_price, t.max_occupancy, t.amenities, t.images);
      showNewTypeDialog := true;
    }

    /** `handleTypeDialogChange`: closing clears the editing id, the form and the image input. */
    method HandleTypeDialogChange(open: bool)
      modifies this`newRoomType, this`newImageUrl, this`editingRoomTypeId, this`showNewTypeDialog
      ensures showNewTypeDialog == open
      ensures !open ==> editingRoomTypeId == "" && newRoomType == EmptyRoomTypeForm && newImageUrl == ""
      ensures open ==> editingRoomTypeId == old(editingRoomTypeId) && newRoomType == old(newRoomType)
      ensures open ==> newImageUrl == old(newImageUrl)
    {
      showNewTypeDialog := open;
      if !open {
        editingRoomTypeId := "";
        newRoomType := EmptyRoomTypeForm;
        newImageUrl := "";
      }
    }
  }
}
