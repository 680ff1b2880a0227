/** The parsed floor-plan model that the renderer consumes: floors own top-level
    rooms, rooms own walls and nested sub-rooms, and the document carries
    connections between rooms. The parser that builds these values is not part
    of this model. */
module Ast {

  /** Presence or absence of an optional attribute (a label, a wall direction). */
  datatype Option<+T> = None | Some(value: T)

  datatype Position = Position(x: real, y: real)

  datatype Size = Size(width: real, height: real)

  /** One `direction: type` entry of a room's wall list, e.g. `top: door`.
      The type is kept as the raw string so that unknown types can be modelled. */
  datatype WallSpec = WallSpec(direction: string, wallType: string)

  /** The keyword a room was declared with: `room` or `sub-room`. */
  datatype RoomKind = TopRoom | SubRoom

  /** A room with its footprint, walls, optional label and nested sub-rooms.
      Sub-room coordinates are absolute, in the same frame as their parent. */
  datatype Room = Room(
    kind: RoomKind,
    name: string,
    position: Position,
    size: Size,
    walls: seq<WallSpec>,
    labelText: Option<string>,
    subRooms: seq<Room>)

  datatype Floor = Floor(id: string, rooms: seq<Room>)

  /** One end of a connection: a named room with an optional wall, or `outside`. */
  datatype Endpoint = Outside | RoomRef(room: string, wall: Option<string>)

  datatype Connection = Connection(
    from: Endpoint,
    to: Endpoint,
    doorType: string,
    position: Option<real>,
    opensInto: Option<string>,
    swing: Option<string>)

  datatype Floorplan = Floorplan(floors: seq<Floor>, connections: seq<Connection>)
}
