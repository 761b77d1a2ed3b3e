/** The records the dashboard exchanges with its backend, the tool schema it
    declares to the speech model, and the REST requests it can issue. */
module OfficeTypes {
  import opened Seqs

  datatype ElectronicsType =
    LIGHT | AC | TV | SPEAKER | FAN | PROJECTOR | PRINTER | CAMERA | ROUTER | CURTAIN

  /** The string value of each enum member, as sent to the backend and
      written into the system instruction. */
  function TypeName(t: ElectronicsType): string {
    match t
    case LIGHT => "LIGHT"
    case AC => "AC"
    case TV => "TV"
    case SPEAKER => "SPEAKER"
    case FAN => "FAN"
    case PROJECTOR => "PROJECTOR"
    case PRINTER => "PRINTER"
    case CAMERA => "CAMERA"
    case ROUTER => "ROUTER"
    case CURTAIN => "CURTAIN"
  }

  datatype ElectronicsState = ON | OFF

  /** One device; `recordId` is the database `_id`, `electronicsId` the
      identifier the backend uses in its routes. */
  datatype Electronics = Electronics(
    recordId: string,
    electronicsId: string,
    electronicsName: string,
    electronicsKey: string,
    deviceType: ElectronicsType,
    state: ElectronicsState)

  datatype Room = Room(
    recordId: string,
    roomId: string,
    roomName: string,
    roomKey: string,
    electronics: seq<Electronics>)

  type OfficeLayout = seq<Room>

  datatype RoomElectronicsMap = RoomElectronicsMap(
    recordId: string,
    mapId: string,
    roomId: string,
    electronicsId: string)

  /** A JSON value as the speech model may put it in a tool call's arguments:
      a string, an array, `null`, or any other value (a number, a boolean,
      an object) carried with its JavaScript string rendering (`String(v)`). */
  datatype JsonValue =
    | JString(value: string)
    | JArray(items: seq<JsonValue>)
    | JNull
    | JOther(rendered: string)

  /** A declared tool: its name and the argument names it requires. */
  datatype FunctionDeclaration = FunctionDeclaration(name: string, required: seq<string>)

  const ControlDeviceName := "controlDevice"
  const CreateRoomName := "createRoom"
  const CreateElectronicsName := "createElectronics"
  const MapElectronicsToRoomName := "mapElectronicsToRoom"

  const FunctionDeclarations: seq<FunctionDeclaration> := [
    FunctionDeclaration(ControlDeviceName, ["deviceIds", "state"]),
    FunctionDeclaration(CreateRoomName, ["roomName"]),
    FunctionDeclaration(CreateElectronicsName, ["electronicsName", "type"]),
    FunctionDeclaration(MapElectronicsToRoomName, ["roomName", "electronicsName"])
  ]

  /** The REST calls the application makes, with their JSON bodies. */
  datatype Request =
    | GetLayout
    | PatchElectronicsState(electronicsIds: seq<JsonValue>, state: string)
    | GetRooms
    | PostRoom(roomName: string, roomKey: string)
    | PutRoom(id: string, roomName: string, roomKey: string)
    | DeleteRoom(id: string)
    | GetElectronics
    | PostElectronics(electronicsName: string, electronicsKey: string, deviceType: string)
    | PutElectronics(id: string, electronicsName: string, electronicsKey: string, deviceType: string)
    | DeleteElectronics(id: string)
    | GetMappings
    | PostMapping(roomId: string, electronicsId: string)
    | DeleteMapping(id: string)
  {
    /** The calls that change the backend's data. */
    predicate IsMutation() {
      !(GetLayout? || GetRooms? || GetElectronics? || GetMappings?)
    }
  }

  /** What `GET /layout` gives back: the layout, or a failure (a rejected
      fetch, a non-2xx status or an unreadable body). */
  datatype LayoutReply = LayoutLoaded(layout: OfficeLayout) | LayoutFailed

  /** `response.ok`: a status in the 2xx range. */
  predicate IsOk(status: nat) {
    200 <= status <= 299
  }
}
