/** One wall segment of a room, drawn according to its wall type. */
module Wall {

  import opened Ast
  import opened Svg
  import Door

  /** The black rectangle of a drawn wall. */
  function SolidWall(x: real, y: real, width: real, height: real): (e: Element)
    ensures e.Rect? && e.x == x && e.y == y && e.width == width && e.height == height
    ensures e.fill == Black && e.strokeWidth == 0.05
  {
    Rect(x, y, width, height, Black, 0.05)
  }

  /** The elements for one wall: nothing for `open`, the wall rectangle and a
      door for `door`, and the wall rectangle alone for every other type string,
      `window` and unknown types included. */
  function WallRectangle(x: real, y: real, width: real, height: real, wallType: string, direction: Option<string>): (r: seq<Element>)
    ensures wallType == "open" <==> r == []
    ensures r != [] ==> r[0] == SolidWall(x, y, width, height)
    ensures wallType == "door" <==> |r| == 2
    ensures wallType == "door" ==> r[1] == Door.GenerateDoor(x, y, width, height, direction)
    ensures wallType != "open" && wallType != "door" ==> r == [SolidWall(x, y, width, height)]
    ensures forall e :: e in r ==> !e.WindowRect?
  {
    if wallType == "open" then
      []
    else if wallType == "door" then
      [SolidWall(x, y, width, height), Door.GenerateDoor(x, y, width, height, direction)]
    else
      [SolidWall(x, y, width, height)]
  }

  /** Every type other than `open` and `door` draws exactly like `solid`. */
  lemma UnknownTypeIsSolid(x: real, y: real, width: real, height: real, wallType: string, direction: Option<string>)
    requires wallType != "open" && wallType != "door"
    ensures WallRectangle(x, y, width, height, wallType, direction) == WallRectangle(x, y, width, height, "solid", direction)
  {
  }

  /** The direction changes the output only for a door wall, and then only the door element. */
  lemma DirectionOnlyAffectsDoor(x: real, y: real, width: real, height: real, wallType: string, d1: Option<string>, d2: Option<string>)
    ensures var r1 := WallRectangle(x, y, width, height, wallType, d1);
      var r2 := WallRectangle(x, y, width, height, wallType, d2);
      |r1| == |r2| && (r1 != [] ==> r1[0] == r2[0]) && (wallType != "door" ==> r1 == r2)
  {
  }
}
