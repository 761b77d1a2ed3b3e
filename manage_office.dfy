/** The administration screen: the three tables that add, rename and map
    rooms and devices, and the lookups the mapping table shows. Keys are
    derived with the same `GenerateKey` the voice tools use. The backend is
    an oracle: whether a request's promise resolved, and with what, is a
    parameter, and the requests sent are recorded in a ghost trace. */
module ManageOffice {
  import opened Seqs
  import opened Text
  import opened OfficeTypes
  import opened Keys

  // ------------------------------------------------------------ lookups

  /** `rooms.find(r => r.room_id === roomId)?.room_name || roomId`: the
      name of the first room with that id, or the id itself when there is
      no such room or its name is empty. */
  function RoomName(rooms: seq<Room>, id: string): (name: string)
    ensures (forall i :: 0 <= i < |rooms| ==> rooms[i].roomId != id) ==> name == id
    ensures forall i :: 0 <= i < |rooms| && rooms[i].roomId == id
                        && (forall j :: 0 <= j < i ==> rooms[j].roomId != id) ==>
      name == if rooms[i].roomName != "" then rooms[i].roomName else id
  {
    match FirstIndex(rooms, (r: Room) => r.roomId == id)
    case Some(k) => if rooms[k].roomName != "" then rooms[k].roomName else id
    case None => id
  }

  /** The same lookup over the devices. */
  function ElectronicsName(electronics: seq<Electronics>, id: string): (name: string)
    ensures (forall i :: 0 <= i < |electronics| ==> electronics[i].electronicsId != id) ==> name == id
    ensures forall i :: 0 <= i < |electronics| && electronics[i].electronicsId == id
                        && (forall j :: 0 <= j < i ==> electronics[j].electronicsId != id) ==>
      name == if electronics[i].electronicsName != "" then electronics[i].electronicsName else id
  {
    match FirstIndex(electronics, (e: Electronics) => e.electronicsId == id)
    case Some(k) => if electronics[k].electronicsName != "" then electronics[k].electronicsName else id
    case None => id
  }

  /** Some mapping names the device. */
  predicate Mapped(maps: seq<RoomElectronicsMap>, id: string) {
    exists k :: 0 <= k < |maps| && maps[k].electronicsId == id
  }

  /** `electronics.filter(el => !maps.some(m => m.electronics_id === el.electronics_id))` */
  function Unmapped(electronics: seq<Electronics>, maps: seq<RoomElectronicsMap>): (r: seq<Electronics>)
    ensures |r| <= |electronics|
    decreases |electronics|
  {
    if electronics == [] then []
    else
      (if Mapped(maps, electronics[0].electronicsId) then [] else [electronics[0]])
      + Unmapped(electronics[1..], maps)
  }

  /** A device is listed exactly when it is one of the devices and no
      mapping names it. */
  lemma {:induction false} UnmappedMembers(electronics: seq<Electronics>, maps: seq<RoomElectronicsMap>, x: Electronics)
    ensures x in Unmapped(electronics, maps) <==> x in electronics && !Mapped(maps, x.electronicsId)
    decreases |electronics|
  {
    if electronics != [] {
      UnmappedMembers(electronics[1..], maps, x);
      assert electronics == [electronics[0]] + electronics[1..];
    }
  }

  /** The filter works element by element and keeps the order: filtering a
      concatenation concatenates the filtered parts. */
  lemma {:induction false} UnmappedAppend(a: seq<Electronics>, b: seq<Electronics>, maps: seq<RoomElectronicsMap>)
    ensures Unmapped(a + b, maps) == Unmapped(a, maps) + Unmapped(b, maps)
    decreases |a|
  {
    if a == [] {
      assert a + b == b;
    } else {
      assert (a + b)[1..] == a[1..] + b;
      UnmappedAppend(a[1..], b, maps);
      AppendAssoc(if Mapped(maps, a[0].electronicsId) then [] else [a[0]], Unmapped(a[1..], maps), Unmapped(b, maps));
    }
  }

  /** With no mappings every device is listed, in order. */
  lemma {:induction false} UnmappedWithoutMaps(electronics: seq<Electronics>)
    ensures Unmapped(electronics, []) == electronics
    decreases |electronics|
  {
    if electronics != [] {
      UnmappedWithoutMaps(electronics[1..]);
      assert electronics == [electronics[0]] + electronics[1..];
    }
  }

  // ------------------------------------------------------------ backend replies

  /** The body of a failed `POST /room-electronics-map`: unreadable as
      JSON, or an object whose `message` may be missing. */
  datatype ErrorBody = Unreadable | ErrorObject(message: Option<string>)

  /** The outcome of a `fetch` whose status the handler inspects. */
  datatype PostReply = FetchRejected | Answered(status: nat, body: ErrorBody)

  const MapFailedText := "Failed to create map"

  /** `err.message || 'Failed to create map'`. */
  function MapErrorText(message: Option<string>): (text: string)
    ensures text != ""
    ensures message.Some? && message.value != "" ==> text == message.value
    ensures message.None? || message.value == "" ==> text == MapFailedText
  {
    if message.Some? && message.value != "" then message.value else MapFailedText
  }

  /** `!name.trim()`: the guard of the two add forms. */
  predicate BlankName(name: string) {
    Trim(name) == ""
  }

  // ------------------------------------------------------------ rooms

  class RoomsTable {
    var newName: string
    var editingId: Option<string>
    var editName: string
    var editKey: string
    var isAdding: bool
    var isSaving: bool
    /** The requests sent to the backend, in order. */
    ghost var requests: seq<Request>

    constructor ()
      ensures newName == "" && editingId.None? && editName == "" && editKey == ""
      ensures !isAdding && !isSaving && requests == []
    {
      newName := "";
      editingId := None;
      editName := "";
      editKey := "";
      isAdding := false;
      isSaving := false;
      requests := [];
    }

    /** `handleAdd`: a blank name changes nothing; otherwise the name as
        typed is posted with its generated key. The status is not looked
        at: once the request resolves the form is reset and closed; a
        rejected request throws and leaves the form saving. */
    method Add(resolved: bool)
      modifies this`newName, this`isAdding, this`isSaving, this`requests
      ensures BlankName(old(newName)) ==> unchanged(this)
      ensures !BlankName(old(newName)) ==>
        requests == old(requests) + [PostRoom(old(newName), GenerateKey(old(newName)))]
      ensures !BlankName(old(newName)) && resolved ==> newName == "" && !isAdding && !isSaving
      ensures !BlankName(old(newName)) && !resolved ==>
        newName == old(newName) && isAdding == old(isAdding) && isSaving
    {
      if BlankName(newName) {
        return;
      }
      var post := PostRoom(newName, GenerateKey(newName));
      isSaving := true;
      requests := requests + [post];
      if resolved {
        newName := "";
        isAdding := false;
        isSaving := false;
      }
    }

    /** `startEdit`: the row's id, name and key are copied into the edit
        state. */
    method StartEdit(room: Room)
      modifies this`editingId, this`editName, this`editKey
      ensures editingId == Some(room.roomId) && editName == room.roomName && editKey == room.roomKey
    {
      editingId := Some(room.roomId);
      editName := room.roomName;
      editKey := room.roomKey;
    }

    /** The name input of the row being edited; the key input is disabled,
        so nothing else writes `editKey`. */
    method SetEditName(name: string)
      modifies this`editName
      ensures editName == name
    {
      editName := name;
    }

    /** `handleEdit`: the edited name and the key copied by `StartEdit` are
        put; once the request resolves the row leaves edit mode. */
    method Edit(roomId: string, resolved: bool)
      modifies this`editingId, this`isSaving, this`requests
      ensures requests == old(requests) + [PutRoom(roomId, editName, editKey)]
      ensures resolved ==> editingId.None? && !isSaving
      ensures !resolved ==> editingId == old(editingId) && isSaving
    {
      isSaving := true;
      requests := requests + [PutRoom(roomId, editName, editKey)];
      if resolved {
        editingId := None;
        isSaving := false;
      }
    }

    /** Renaming a row: whatever name is typed, the key sent is the one the
        room already had. */
    method Rename(room: Room, name: string, resolved: bool)
      modifies this`editingId, this`editName, this`editKey, this`isSaving, this`requests
      ensures requests == old(requests) + [PutRoom(room.roomId, name, room.roomKey)]
    {
      StartEdit(room);
      SetEditName(name);
      Edit(room.roomId, resolved);
    }
  }

  // ------------------------------------------------------------ devices

  class ElectronicsTable {
    var newName: string
    var newType: ElectronicsType
    var editingId: Option<string>
    var editName: string
    var editKey: string
    var editType: ElectronicsType
    var isAdding: bool
    var isSaving: bool
    /** The requests sent to the backend, in order. */
    ghost var requests: seq<Request>

    constructor ()
      ensures newName == "" && newType == LIGHT && editingId.None? && editName == "" && editKey == ""
      ensures editType == LIGHT && !isAdding && !isSaving && requests == []
    {
      newName := "";
      newType := LIGHT;
      editingId := None;
      editName := "";
      editKey := "";
      editType := LIGHT;
      isAdding := false;
      isSaving := false;
      requests := [];
    }

    /** `handleAdd`: a blank name changes nothing; otherwise the name as
        typed is posted with its generated key and the selected type. Once
        the request resolves the name is cleared, the type goes back to
        LIGHT and the form closes. */
    method Add(resolved: bool)
      modifies this`newName, this`newType, this`isAdding, this`isSaving, this`requests
      ensures BlankName(old(newName)) ==> unchanged(this)
      ensures !BlankName(old(newName)) ==>
        requests == old(requests) + [PostElectronics(old(newName), GenerateKey(old(newName)), TypeName(old(newType)))]
      ensures !BlankName(old(newName)) && resolved ==> newName == "" && newType == LIGHT && !isAdding && !isSaving
      ensures !BlankName(old(newName)) && !resolved ==>
        newName == old(newName) && newType == old(newType) && isAdding == old(isAdding) && isSaving
    {
      if BlankName(newName) {
        return;
      }
      var post := PostElectronics(newName, GenerateKey(newName), TypeName(newType));
      isSaving := true;
      requests := requests + [post];
      if resolved {
        newName := "";
        newType := LIGHT;
        isAdding := false;
        isSaving := false;
      }
    }

    /** `startEdit`: the row's id, name, key and type are copied into the
        edit state. */
    method StartEdit(el: Electronics)
      modifies this`editingId, this`editName, this`editKey, this`editType
      ensures editingId == Some(el.electronicsId) && editName == el.electronicsName
      ensures editKey == el.electronicsKey && editType == el.deviceType
    {
      editingId := Some(el.electronicsId);
      editName := el.electronicsName;
      editKey := el.electronicsKey;
      editType := el.deviceType;
    }

    /** The name input of the row being edited. */
    method SetEditName(name: string)
      modifies this`editName
      ensures editName == name
    {
      editName := name;
    }

    /** The type selector of the row being edited. */
    method SetEditType(t: ElectronicsType)
      modifies this`editType
      ensures editType == t
    {
      editType := t;
    }

    /** `handleEdit`: the edited name and type are put with the key copied
        by `StartEdit`. */
    method Edit(electronicsId: string, resolved: bool)
      modifies this`editingId, this`isSaving, this`requests
      ensures requests == old(requests) + [PutElectronics(electronicsId, editName, editKey, TypeName(editType))]
      ensures resolved ==> editingId.None? && !isSaving
      ensures !resolved ==> editingId == old(editingId) && isSaving
    {
      isSaving := true;
      requests := requests + [PutElectronics(electronicsId, editName, editKey, TypeName(editType))];
      if resolved {
        editingId := None;
        isSaving := false;
      }
    }

    /** Editing a row: the name and the type may change, the key sent is
        the one the device already had. */
    method Revise(el: Electronics, name: string, t: ElectronicsType, resolved: bool)
      modifies this`editingId, this`editName, this`editKey, this`editType, this`isSaving, this`requests
      ensures requests == old(requests) + [PutElectronics(el.electronicsId, name, el.electronicsKey, TypeName(t))]
    {
      StartEdit(el);
      SetEditName(name);
      SetEditType(t);
      Edit(el.electronicsId, resolved);
    }
  }

  // ------------------------------------------------------------ mappings

  class RoomMapTable {
    var mapRoomId: string
    var mapElectronicsId: string
    var isAdding: bool
    var errorMsg: string
    var isSaving: bool
    /** The requests sent to the backend, in order. */
    ghost var requests: seq<Request>

    constructor ()
      ensures mapRoomId == "" && mapElectronicsId == "" && !isAdding && errorMsg == "" && !isSaving
      ensures requests == []
    {
      mapRoomId := "";
      mapElectronicsId := "";
      isAdding := false;
      errorMsg := "";
      isSaving := false;
      requests := [];
    }

    /** `handleAdd`: without both selections nothing happens. Otherwise the
        mapping is posted; a non-2xx reply shows the server's message (or
        the fallback text) and keeps the selections; a 2xx reply clears
        the selections and closes the form. A rejected request, or an
        error body that is not JSON, throws where it happens. */
    method Add(reply: PostReply)
      modifies this`mapRoomId, this`mapElectronicsId, this`isAdding, this`errorMsg, this`isSaving, this`requests
      ensures old(mapRoomId) == "" || old(mapElectronicsId) == "" ==> unchanged(this)
      ensures old(mapRoomId) != "" && old(mapElectronicsId) != "" ==>
        && requests == old(requests) + [PostMapping(old(mapRoomId), old(mapElectronicsId))]
        && isSaving == reply.FetchRejected?
        && (reply.Answered? && IsOk(reply.status) ==> mapRoomId == "" && mapElectronicsId == "" && !isAdding && errorMsg == "")
        && (!(reply.Answered? && IsOk(reply.status)) ==>
              mapRoomId == old(mapRoomId) && mapElectronicsId == old(mapElectronicsId) && isAdding == old(isAdding))
        && (reply.Answered? && !IsOk(reply.status) && reply.body.ErrorObject? ==> errorMsg == MapErrorText(reply.body.message))
        && (reply.FetchRejected? || (reply.Answered? && !IsOk(reply.status) && reply.body.Unreadable?) ==> errorMsg == "")
    {
      if mapRoomId == "" || mapElectronicsId == "" {
        return;
      }
      errorMsg := "";
      isSaving := true;
      requests := requests + [PostMapping(mapRoomId, mapElectronicsId)];
      match reply {
        case FetchRejected =>
          return;
        case Answered(status, body) =>
          isSaving := false;
          if !IsOk(status) {
            if body.ErrorObject? {
              errorMsg := MapErrorText(body.message);
            }
            return;
          }
          mapRoomId := "";
          mapElectronicsId := "";
          isAdding := false;
      }
    }
  }
}
