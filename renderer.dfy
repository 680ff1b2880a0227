/** The top-level renderer: the document for the first floor of a floor plan. */
module Renderer {

  import opened Ast
  import opened Svg
  import RoomShape
  import FloorBounds

  /** The `viewBox` numbers taken from the bounds; `None` when there are no rooms. */
  function ViewBoxOf(bounds: Option<FloorBounds.Bounds>): (v: Option<ViewBox>)
    ensures v.None? <==> bounds.None?
    ensures bounds.Some? ==> v.value == ViewBox(bounds.value.minX, bounds.value.minY, bounds.value.width, bounds.value.height)
  {
    match bounds
    case None => None
    case Some(b) => Some(ViewBox(b.minX, b.minY, b.width, b.height))
  }

  /** The room rectangles of the given rooms, in declaration order. */
  function RoomRectangles(rooms: seq<Room>): (m: seq<Markup>)
    ensures |m| == |rooms|
    ensures forall i :: 0 <= i < |rooms| ==> m[i].Child? && m[i].element == RoomShape.GenerateRoomRectangle(rooms[i])
  {
    seq(|rooms|, i requires 0 <= i < |rooms| => Child(RoomShape.GenerateRoomRectangle(rooms[i])))
  }

  /** The document drawn for one floor: the root element with the floor's view
      box, then, when the floor has rooms, the boundary rectangle followed by one
      rectangle per top-level room, then the closing tag. */
  function Document(floor: Floor): (m: seq<Markup>)
    ensures |m| == (if floor.rooms == [] then 2 else 3 + |floor.rooms|)
    ensures m[0].SvgOpen? && m[|m| - 1] == SvgClose
    ensures forall i :: 0 < i < |m| - 1 ==> m[i].Child?
  {
    [SvgOpen(ViewBoxOf(FloorBounds.Hull(floor.rooms)))]
    + (if floor.rooms == [] then []
       else [Child(FloorBounds.GenerateFloorRectangle(floor))] + RoomRectangles(floor.rooms))
    + [SvgClose]
  }

  /** Renders a floor plan: nothing at all when it has no floors, otherwise the
      document of its first floor, built element by element. */
  method Render(plan: Floorplan) returns (out: seq<Markup>)
    ensures out == [] <==> plan.floors == []
    ensures plan.floors != [] ==> out == Document(plan.floors[0])
  {
    if |plan.floors| == 0 {
      return [];
    }
    var floor := plan.floors[0];
    var bounds := FloorBounds.CalculateFloorBounds(floor);
    out := [SvgOpen(ViewBoxOf(bounds))];
    if |floor.rooms| > 0 {
      out := out + [Child(FloorBounds.GenerateFloorRectangle(floor))];
      for i := 0 to |floor.rooms|
        invariant |out| == 2 + i
        invariant out[..2] == [SvgOpen(ViewBoxOf(bounds)), Child(FloorBounds.GenerateFloorRectangle(floor))]
        invariant forall k :: 0 <= k < i ==> out[2 + k] == Child(RoomShape.GenerateRoomRectangle(floor.rooms[k]))
      {
        out := out + [Child(RoomShape.GenerateRoomRectangle(floor.rooms[i]))];
      }
    }
    out := out + [SvgClose];
    assert out == Document(floor);
  }

  /** The shape of a floor's document: it opens with the root element carrying
      the floor's bounds and closes with the closing tag; an empty floor has no
      children, and otherwise the boundary rectangle comes first and room `i`'s
      rectangle is child `i + 1`, so there are exactly `1 + |rooms|` children. */
  lemma DocumentShape(floor: Floor)
    ensures var m := Document(floor);
      && m[0] == SvgOpen(ViewBoxOf(FloorBounds.Hull(floor.rooms)))
      && m[|m| - 1] == SvgClose
      && (floor.rooms == [] ==> |m| == 2)
      && (floor.rooms != [] ==>
        && |m| == 3 + |floor.rooms|
        && m[1] == Child(FloorBounds.GenerateFloorRectangle(floor))
        && forall i :: 0 <= i < |floor.rooms| ==> m[i + 2] == Child(RoomShape.GenerateRoomRectangle(floor.rooms[i])))
  {
    var m := Document(floor);
    if floor.rooms != [] {
      var rest := RoomRectangles(floor.rooms);
      assert m == [m[0], Child(FloorBounds.GenerateFloorRectangle(floor))] + rest + [SvgClose];
      forall i | 0 <= i < |floor.rooms|
        ensures m[i + 2] == Child(RoomShape.GenerateRoomRectangle(floor.rooms[i]))
      {
        assert m[i + 2] == rest[i];
      }
    }
  }

  /** Only what lies between the root tags are children, and all of them are
      rectangles: no door or window glyph is ever drawn. That no sub-room is
      drawn either follows from DocumentShape, which fixes every child. */
  lemma DocumentChildrenAreRectangles(floor: Floor)
    ensures var m := Document(floor);
      forall i :: 0 < i < |m| - 1 ==> m[i].Child? && m[i].element.Rect?
  {
  }

  /** Two floors whose top-level rooms agree in position and size render alike:
      walls, labels, names and sub-rooms have no effect on the document. */
  lemma {:induction false} DocumentIgnoresWallsAndSubRooms(f: Floor, g: Floor)
    requires |f.rooms| == |g.rooms|
    requires forall i :: 0 <= i < |f.rooms| ==> f.rooms[i].position == g.rooms[i].position && f.rooms[i].size == g.rooms[i].size
    ensures Document(f) == Document(g)
  {
    FloorBounds.HullIgnoresSubRooms(f.rooms, g.rooms);
    var rf, rg := RoomRectangles(f.rooms), RoomRectangles(g.rooms);
    forall i | 0 <= i < |f.rooms| ensures rf[i] == rg[i] {
      RoomShape.RoomRectangleDependsOnlyOnFootprint(f.rooms[i], g.rooms[i]);
    }
  }
}
