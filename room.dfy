/** The body rectangle of a room. */
module RoomShape {

  import opened Ast
  import opened Svg

  /** The room's filled rectangle: exactly its position and size, light blue,
      stroke width 0.1. */
  function GenerateRoomRectangle(room: Room): (e: Element)
    ensures e.Rect?
    ensures e.x == room.position.x && e.y == room.position.y
    ensures e.width == room.size.width && e.height == room.size.height
    ensures e.fill == LightBlue && e.strokeWidth == 0.1
  {
    Rect(room.position.x, room.position.y, room.size.width, room.size.height, LightBlue, 0.1)
  }

  /** Only the footprint matters: walls, label, kind, name and sub-rooms do not. */
  lemma RoomRectangleDependsOnlyOnFootprint(a: Room, b: Room)
    requires a.position == b.position && a.size == b.size
    ensures GenerateRoomRectangle(a) == GenerateRoomRectangle(b)
  {
  }
}
