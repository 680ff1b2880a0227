/** The door glyph drawn on a door wall: a quarter-circle swing whose hinge is
    on the wall's centre line. */
module Door {

  import opened Ast
  import opened Svg

  /** The door radius: 9.6 times the wall thickness. */
  function DoorRadius(width: real, height: real): (radius: real) {
    Min(width, height) * 9.6
  }

  /** The door path for the wall rectangle `(x, y, width, height)`. A horizontal
      wall swings down for direction `bottom` and up otherwise; a vertical wall
      swings right for direction `right` and left otherwise. */
  function GenerateDoor(x: real, y: real, width: real, height: real, direction: Option<string>): (d: Element)
    ensures d.DoorPath? && d.direction == direction
    ensures d.radius == 9.6 * Min(width, height)
    // the swing starts and ends on the wall's centre line, symmetric about its centre, one radius apart
    ensures IsHorizontal(width, height) ==>
      && d.start.y == d.end.y == y + height / 2.0
      && d.start.x + d.end.x == 2.0 * x + width
      && d.end.x - d.start.x == d.radius
    ensures !IsHorizontal(width, height) ==>
      && d.start.x == d.end.x == x + width / 2.0
      && d.start.y + d.end.y == 2.0 * y + height
      && d.end.y - d.start.y == d.radius
  {
    var centerX := x + width / 2.0;
    var centerY := y + height / 2.0;
    var radius := DoorRadius(width, height);
    if IsHorizontal(width, height) then
      var startX := centerX - radius / 2.0;
      var endX := centerX + radius / 2.0;
      if direction == Some("bottom") then
        DoorPath(Point(startX, centerY), Point(startX, centerY + radius), radius, 0, Point(endX, centerY), direction)
      else
        DoorPath(Point(startX, centerY), Point(startX, centerY - radius), radius, 1, Point(endX, centerY), direction)
    else
      var startY := centerY - radius / 2.0;
      var endY := centerY + radius / 2.0;
      if direction == Some("right") then
        DoorPath(Point(centerX, startY), Point(centerX + radius, startY), radius, 1, Point(centerX, endY), direction)
      else
        DoorPath(Point(centerX, startY), Point(centerX - radius, startY), radius, 0, Point(centerX, endY), direction)
  }

  /** Squared distance between two points. */
  function DistanceSquared(p: Point, q: Point): (d: real) {
    (q.x - p.x) * (q.x - p.x) + (q.y - p.y) * (q.y - p.y)
  }

  /** The z component of the cross product of `a - o` and `b - o`; positive when
      turning from `a` to `b` about `o` goes the SVG positive-angle way. */
  function Turn(o: Point, a: Point, b: Point): (t: real) {
    (a.x - o.x) * (b.y - o.y) - (a.y - o.y) * (b.x - o.x)
  }

  /** The arc of a horizontal wall: hinge `h`, corner one radius above or below
      it, end one radius along the wall. */
  lemma ArcAlongX(h: Point, r: real, down: bool)
    ensures var c := Point(h.x, if down then h.y + r else h.y - r);
      var e := Point(h.x + r, h.y);
      && DistanceSquared(h, c) == r * r
      && DistanceSquared(h, e) == r * r
      && (c.x - h.x) * (e.x - h.x) + (c.y - h.y) * (e.y - h.y) == 0.0
      && Turn(h, c, e) == (if down then -(r * r) else r * r)
  {
  }

  /** The arc of a vertical wall: hinge `h`, corner one radius right or left of
      it, end one radius along the wall. */
  lemma ArcAlongY(h: Point, r: real, right: bool)
    ensures var c := Point(if right then h.x + r else h.x - r, h.y);
      var e := Point(h.x, h.y + r);
      && DistanceSquared(h, c) == r * r
      && DistanceSquared(h, e) == r * r
      && (c.x - h.x) * (e.x - h.x) + (c.y - h.y) * (e.y - h.y) == 0.0
      && Turn(h, c, e) == (if right then r * r else -(r * r))
  {
  }

  /** The arc is a quarter circle about the hinge (the path's start point):
      the corner and the end point are both one radius from the hinge, at a
      right angle, and the signed turn from corner to end agrees with the sweep
      flag, so the arc takes the short way round (flag 1 for a positive turn). */
  lemma {:induction false} DoorArcIsQuarterCircle(x: real, y: real, width: real, height: real, direction: Option<string>)
    ensures var d := GenerateDoor(x, y, width, height, direction);
      && DistanceSquared(d.start, d.corner) == d.radius * d.radius
      && DistanceSquared(d.start, d.end) == d.radius * d.radius
      && (d.corner.x - d.start.x) * (d.end.x - d.start.x) + (d.corner.y - d.start.y) * (d.end.y - d.start.y) == 0.0
      && Turn(d.start, d.corner, d.end) == (if d.sweep == 1 then d.radius * d.radius else -(d.radius * d.radius))
  {
    var d := GenerateDoor(x, y, width, height, direction);
    var h, r := d.start, d.radius;
    if IsHorizontal(width, height) {
      var down := direction == Some("bottom");
      assert d.corner == Point(h.x, if down then h.y + r else h.y - r);
      assert d.end == Point(h.x + r, h.y);
      assert d.sweep == (if down then 0 else 1);
      ArcAlongX(h, r, down);
    } else {
      var right := direction == Some("right");
      assert d.corner == Point(if right then h.x + r else h.x - r, h.y);
      assert d.end == Point(h.x, h.y + r);
      assert d.sweep == (if right then 1 else 0);
      ArcAlongY(h, r, right);
    }
  }

  /** The door swings to the side the wall direction names: perpendicular to the
      wall, by one radius, down for `bottom` and right for `right`, and up or left
      for every other direction, an absent one included. */
  lemma DoorSwingSide(x: real, y: real, width: real, height: real, direction: Option<string>)
    ensures var d := GenerateDoor(x, y, width, height, direction);
      if IsHorizontal(width, height) then
        d.corner.x == d.start.x &&
        d.corner.y - d.start.y == (if direction == Some("bottom") then d.radius else -d.radius)
      else
        d.corner.y == d.start.y &&
        d.corner.x - d.start.x == (if direction == Some("right") then d.radius else -d.radius)
  {
  }

  /** The sweep flag is 0 in the bottom and left branches and 1 in the top and right ones. */
  lemma DoorSweepFlag(x: real, y: real, width: real, height: real, direction: Option<string>)
    ensures var d := GenerateDoor(x, y, width, height, direction);
      (d.sweep == 0 || d.sweep == 1) &&
      (d.sweep == 1 <==>
        if IsHorizontal(width, height) then direction != Some("bottom") else direction == Some("right"))
  {
  }
}
