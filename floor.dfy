/** The bounding box of a floor and the floor's boundary rectangle. */
module FloorBounds {

  import opened Ast
  import opened Svg
  import RoomShape

  /** The result record of the bounds calculation: the extrema and the size they span. */
  datatype Bounds = Bounds(minX: real, minY: real, maxX: real, maxY: real, width: real, height: real)

  /** The bounds with the given extrema. */
  function Box(minX: real, minY: real, maxX: real, maxY: real): (b: Bounds) {
    Bounds(minX, minY, maxX, maxY, maxX - minX, maxY - minY)
  }

  /** One step of the fold: widen the running extrema to cover `room`. `None`
      stands for the starting extrema, +Infinity for the minima and -Infinity
      for the maxima, which every finite coordinate replaces. */
  function Include(acc: Option<Bounds>, room: Room): (b: Bounds)
    ensures b.width == b.maxX - b.minX && b.height == b.maxY - b.minY
    // the new extrema cover the room ...
    ensures b.minX <= room.position.x && room.position.x + room.size.width <= b.maxX
    ensures b.minY <= room.position.y && room.position.y + room.size.height <= b.maxY
    // ... and the previous extrema ...
    ensures acc.Some? ==>
      && b.minX <= acc.value.minX && acc.value.maxX <= b.maxX
      && b.minY <= acc.value.minY && acc.value.maxY <= b.maxY
    // ... and each is either the previous one or the room's edge
    ensures b.minX == room.position.x || (acc.Some? && b.minX == acc.value.minX)
    ensures b.minY == room.position.y || (acc.Some? && b.minY == acc.value.minY)
    ensures b.maxX == room.position.x + room.size.width || (acc.Some? && b.maxX == acc.value.maxX)
    ensures b.maxY == room.position.y + room.size.height || (acc.Some? && b.maxY == acc.value.maxY)
  {
    var x := room.position.x;
    var y := room.position.y;
    var right := x + room.size.width;
    var bottom := y + room.size.height;
    match acc
    case None => Box(x, y, right, bottom)
    case Some(b) => Box(Min(b.minX, x), Min(b.minY, y), Max(b.maxX, right), Max(b.maxY, bottom))
  }

  /** The bounds of the rooms, folded in list order; `None` for no rooms. */
  function Hull(rooms: seq<Room>): (h: Option<Bounds>)
    ensures h.None? <==> rooms == []
  {
    if rooms == [] then None
    else Some(Include(Hull(rooms[..|rooms| - 1]), rooms[|rooms| - 1]))
  }

  /** Every room's footprint lies within `b`. */
  ghost predicate Encloses(rooms: seq<Room>, b: Bounds) {
    forall r :: r in rooms ==>
      && b.minX <= r.position.x && r.position.x + r.size.width <= b.maxX
      && b.minY <= r.position.y && r.position.y + r.size.height <= b.maxY
  }

  /** Each extremum of `b` is some room's edge. */
  ghost predicate Attained(rooms: seq<Room>, b: Bounds) {
    && (exists r :: r in rooms && r.position.x == b.minX)
    && (exists r :: r in rooms && r.position.y == b.minY)
    && (exists r :: r in rooms && r.position.x + r.size.width == b.maxX)
    && (exists r :: r in rooms && r.position.y + r.size.height == b.maxY)
  }

  /** `b` is the smallest box around the rooms, with its width and height. */
  ghost predicate IsTightBounds(rooms: seq<Room>, b: Bounds) {
    && Encloses(rooms, b)
    && Attained(rooms, b)
    && b.width == b.maxX - b.minX
    && b.height == b.maxY - b.minY
  }

  /** Bounds that cover bounds `b` of `init` and the room `last` enclose `init + [last]`. */
  lemma EnclosesStep(init: seq<Room>, last: Room, b: Bounds, h: Bounds)
    requires Encloses(init, b)
    requires h.minX <= b.minX && b.maxX <= h.maxX && h.minY <= b.minY && b.maxY <= h.maxY
    requires h.minX <= last.position.x && last.position.x + last.size.width <= h.maxX
    requires h.minY <= last.position.y && last.position.y + last.size.height <= h.maxY
    ensures Encloses(init + [last], h)
  {
    forall r | r in init + [last]
      ensures h.minX <= r.position.x && r.position.x + r.size.width <= h.maxX
      ensures h.minY <= r.position.y && r.position.y + r.size.height <= h.maxY
    {
      if r != last {
        assert r in init;
      }
    }
  }

  /** The folded bounds contain every room of a non-empty list. */
  lemma {:induction false} HullEncloses(rooms: seq<Room>)
    requires rooms != []
    ensures Encloses(rooms, Hull(rooms).value)
  {
    var init, last := rooms[..|rooms| - 1], rooms[|rooms| - 1];
    assert rooms == init + [last];
    var h := Hull(rooms).value;
    if init != [] {
      HullEncloses(init);
      var b := Hull(init).value;
      assert h == Include(Some(b), last);
      EnclosesStep(init, last, b, h);
    } else {
      assert h == Include(None, last);
      EnclosesStep(init, last, h, h);
    }
  }

  /** Each extremum of the folded bounds of a non-empty list is some room's edge. */
  lemma {:induction false} HullAttained(rooms: seq<Room>)
    requires rooms != []
    ensures Attained(rooms, Hull(rooms).value)
  {
    var init, last := rooms[..|rooms| - 1], rooms[|rooms| - 1];
    assert rooms == init + [last];
    var h := Hull(rooms).value;
    assert last in rooms;
    if init != [] {
      HullAttained(init);
      var b := Hull(init).value;
      assert h == Include(Some(b), last);
      var rx :| rx in init && rx.position.x == b.minX;
      var ry :| ry in init && ry.position.y == b.minY;
      var rr :| rr in init && rr.position.x + rr.size.width == b.maxX;
      var rb :| rb in init && rb.position.y + rb.size.height == b.maxY;
      assert rx in rooms && ry in rooms && rr in rooms && rb in rooms;
    }
  }

  /** The fold computes the tight bounds of a non-empty room list. */
  lemma HullIsTight(rooms: seq<Room>)
    requires rooms != []
    ensures IsTightBounds(rooms, Hull(rooms).value)
  {
    HullEncloses(rooms);
    HullAttained(rooms);
  }

  /** Tight bounds are unique: they are determined by the rooms alone. */
  lemma TightBoundsUnique(rooms: seq<Room>, b1: Bounds, b2: Bounds)
    requires IsTightBounds(rooms, b1) && IsTightBounds(rooms, b2)
    ensures b1 == b2
  {
    var r1 :| r1 in rooms && r1.position.x == b1.minX;
    var r2 :| r2 in rooms && r2.position.x == b2.minX;
    var s1 :| s1 in rooms && s1.position.y == b1.minY;
    var s2 :| s2 in rooms && s2.position.y == b2.minY;
    var t1 :| t1 in rooms && t1.position.x + t1.size.width == b1.maxX;
    var t2 :| t2 in rooms && t2.position.x + t2.size.width == b2.maxX;
    var u1 :| u1 in rooms && u1.position.y + u1.size.height == b1.maxY;
    var u2 :| u2 in rooms && u2.position.y + u2.size.height == b2.maxY;
  }

  /** The bounds do not depend on the order of the rooms. */
  lemma HullOrderIndependent(a: seq<Room>, b: seq<Room>)
    requires multiset(a) == multiset(b)
    ensures Hull(a) == Hull(b)
  {
    assert |a| == |multiset(a)| == |multiset(b)| == |b|;
    if a != [] {
      assert forall r :: r in a <==> r in b by {
        forall r ensures r in a <==> r in b {
          assert r in a <==> r in multiset(a);
          assert r in b <==> r in multiset(b);
        }
      }
      HullIsTight(a);
      HullIsTight(b);
      TightBoundsUnique(b, Hull(a).value, Hull(b).value);
    }
  }

  /** Only the rooms' positions and sizes enter the bounds: their walls, labels
      and sub-rooms never do. */
  lemma {:induction false} HullIgnoresSubRooms(a: seq<Room>, b: seq<Room>)
    requires |a| == |b|
    requires forall i :: 0 <= i < |a| ==> a[i].position == b[i].position && a[i].size == b[i].size
    ensures Hull(a) == Hull(b)
  {
    if a != [] {
      HullIgnoresSubRooms(a[..|a| - 1], b[..|b| - 1]);
    }
  }

  /** With rooms of non-negative size the bounds have non-negative size. */
  lemma HullSizeNonNegative(rooms: seq<Room>)
    requires rooms != []
    requires forall r :: r in rooms ==> r.size.width >= 0.0 && r.size.height >= 0.0
    ensures Hull(rooms).value.width >= 0.0 && Hull(rooms).value.height >= 0.0
  {
    HullIsTight(rooms);
  }

  /** A single room at (2, 3) of size 4 x 5 has bounds (2, 3)-(6, 8) of size 4 x 5. */
  lemma SingleRoomBounds(room: Room)
    requires room.position == Position(2.0, 3.0) && room.size == Size(4.0, 5.0)
    ensures Hull([room]) == Some(Bounds(2.0, 3.0, 6.0, 8.0, 4.0, 5.0))
  {
  }

  /** Computes the floor's bounds by a single pass over its top-level rooms,
      keeping four running extrema; `None` when the floor has no rooms. */
  method CalculateFloorBounds(floor: Floor) returns (bounds: Option<Bounds>)
    ensures bounds == Hull(floor.rooms)
    ensures bounds.None? <==> floor.rooms == []
    ensures bounds.Some? ==> IsTightBounds(floor.rooms, bounds.value)
  {
    // `started` is false while the extrema still hold their infinite start values
    var started := false;
    var minX, minY, maxX, maxY := 0.0, 0.0, 0.0, 0.0;
    for i := 0 to |floor.rooms|
      invariant started <==> i > 0
      invariant started ==> Hull(floor.rooms[..i]) == Some(Box(minX, minY, maxX, maxY))
    {
      var room := floor.rooms[i];
      var x := room.position.x;
      var y := room.position.y;
      var width := room.size.width;
      var height := room.size.height;
      assert floor.rooms[..i + 1][..i] == floor.rooms[..i];
      minX := if started then Min(minX, x) else x;
      minY := if started then Min(minY, y) else y;
      maxX := if started then Max(maxX, x + width) else x + width;
      maxY := if started then Max(maxY, y + height) else y + height;
      started := true;
    }
    assert floor.rooms[..|floor.rooms|] == floor.rooms;
    if started {
      bounds := Some(Box(minX, minY, maxX, maxY));
      HullIsTight(floor.rooms);
    } else {
      bounds := None;
    }
  }

  /** The floor's boundary rectangle: the bounds, unfilled, stroke width 0.1. */
  function GenerateFloorRectangle(floor: Floor): (e: Element)
    requires floor.rooms != []
    ensures e.Rect? && e.fill == NoFill && e.strokeWidth == 0.1
    ensures var b := Hull(floor.rooms).value;
      e.x == b.minX && e.y == b.minY && e.width == b.width && e.height == b.height
  {
    var b := Hull(floor.rooms).value;
    Rect(b.minX, b.minY, b.width, b.height, NoFill, 0.1)
  }

  /** Every top-level room's rectangle lies inside the floor's boundary rectangle,
      and the boundary touches the outermost rooms on all four sides. */
  lemma FloorRectangleEnclosesRooms(floor: Floor)
    requires floor.rooms != []
    ensures forall r :: r in floor.rooms ==>
      RectWithin(RoomShape.GenerateRoomRectangle(r), GenerateFloorRectangle(floor))
    ensures var f := GenerateFloorRectangle(floor);
      && (exists r :: r in floor.rooms && RoomShape.GenerateRoomRectangle(r).x == f.x)
      && (exists r :: r in floor.rooms && RoomShape.GenerateRoomRectangle(r).y == f.y)
      && (exists r :: r in floor.rooms && r.position.x + r.size.width == f.x + f.width)
      && (exists r :: r in floor.rooms && r.position.y + r.size.height == f.y + f.height)
  {
    HullIsTight(floor.rooms);
  }
}
