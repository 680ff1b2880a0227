# Floor-plan renderer: geometric core

A Dafny model of the rendering core of a floor-plan diagram generator. A parsed
floor plan (floors, each owning top-level rooms, each room owning walls and
nested sub-rooms, plus connections between rooms) is turned into a sequence of
SVG primitives. The model covers:

- the floor bounds calculation, a min/max fold over a floor's top-level rooms
  (`FloorBounds`, an imperative loop proved against the fold `Hull` and the
  declarative `IsTightBounds`);
- the floor boundary rectangle and the room body rectangle;
- the wall-segment dispatcher (`open` draws nothing, `door` draws the wall and a
  door swing, every other type draws a plain wall);
- the door swing path and the window rectangle, as closed-form geometry;
- the top-level renderer, which draws only the first floor: the root element with
  the floor's view box, the floor boundary, and one rectangle per top-level room.

Coordinates are `real`, and the constants 9.6 (door radius per wall thickness) and
20 (window length per wall thickness) are exact. The output is structured: a
`seq<Markup>` of `SvgOpen(viewBox)`, `Child(element)` and `SvgClose`, where the
source appends text fragments to a string. Numbers are not formatted, and
whitespace is not modelled.

Modules: `Ast` (the input model) and `Svg` (the output primitives), then `Door`, `Window`,
`Wall`, `RoomShape`, `FloorBounds` and `Renderer`, the last six one per source file.

The renderer as written differs from a fuller floor-plan renderer in four ways:

- the renderer draws only `floors[0]`, not every floor over union bounds;
- it draws no walls, labels or sub-rooms;
- a plan with no floors renders to nothing, not to an empty document;
- `wallRectangle` draws a `window` wall as a plain wall and never draws a window glyph.

## Model

| member | source | states |
|---|---|---|
| Svg.Min | src/floor/index.ts:30-31 | `Math.min` on finite numbers: the result is at most both arguments and equal to one of them |
| Svg.Max | src/floor/index.ts:32-33 | `Math.max` on finite numbers: the result is at least both arguments and equal to one of them |
| FloorBounds.Include | src/floor/index.ts:25-33 | one loop step: the new extrema cover the room and the previous extrema, each new extremum is either the previous one or the room's own edge, and width and height are max minus min |
| FloorBounds.Hull | src/floor/index.ts:19-34 | folding the rooms in order gives no bounds exactly when there are no rooms |
| FloorBounds.CalculateFloorBounds | src/floor/index.ts:11-44 | the loop over the top-level rooms yields the fold's result, `None` exactly for an empty room list, and otherwise the tight bounds: every room inside, every extremum some room's edge, width = maxX - minX and height = maxY - minY |
| FloorBounds.HullEncloses | src/floor/index.ts:24-34 | for a non-empty room list every room satisfies minX <= x, x + width <= maxX, minY <= y and y + height <= maxY |
| FloorBounds.HullAttained | src/floor/index.ts:30-33 | for a non-empty room list minX and minY are some room's x and y, and maxX and maxY some room's right and bottom edge |
| FloorBounds.HullIsTight | src/floor/index.ts:24-43 | for a non-empty room list the folded bounds contain every room and each of minX, minY, maxX, maxY is attained by some room |
| FloorBounds.TightBoundsUnique | src/floor/index.ts:30-33 | containment and attainment determine the bounds uniquely |
| FloorBounds.HullOrderIndependent | src/floor/index.ts:24-34 | any permutation of the room list gives the same bounds |
| FloorBounds.HullIgnoresSubRooms | src/floor/index.ts:24-28 | only top-level positions and sizes are read: room lists agreeing on them give the same bounds, whatever their walls, labels or sub-rooms |
| FloorBounds.HullSizeNonNegative | src/floor/index.ts:30-42 | with a non-empty list of rooms of non-negative size, width and height are non-negative |
| FloorBounds.SingleRoomBounds | src/floor/index.ts:11-43 | one room at (2, 3) of size 4 x 5 gives minX 2, minY 3, maxX 6, maxY 8, width 4, height 5 |
| FloorBounds.GenerateFloorRectangle | src/floor/index.ts:3-9 | one unfilled rectangle at (minX, minY) of the bounds' width and height, stroke width 0.1 |
| FloorBounds.FloorRectangleEnclosesRooms | src/floor/index.ts:3-44 | every top-level room's rectangle lies inside the floor rectangle, and the floor rectangle touches some room on each of its four sides |
| RoomShape.GenerateRoomRectangle | src/room/index.ts:3-11 | one rectangle with exactly the room's position and size, light blue fill, stroke width 0.1 |
| RoomShape.RoomRectangleDependsOnlyOnFootprint | src/room/index.ts:3-11 | rooms with the same position and size get the same rectangle, whatever their walls, label, kind, name or sub-rooms |
| Wall.WallRectangle | src/room/wall.ts:3-24 | `open` and only `open` gives nothing; `door` and only `door` gives two elements, the black wall rectangle of exactly the given geometry followed by the door for the same geometry and direction; every other type gives exactly that one wall rectangle; no window glyph is ever produced |
| Wall.UnknownTypeIsSolid | src/room/wall.ts:22-23 | every type other than `open` and `door` (`window` and unknown strings included) draws exactly like `solid` |
| Wall.DirectionOnlyAffectsDoor | src/room/wall.ts:11-23 | changing the direction leaves the output unchanged except for the door element of a `door` wall |
| Wall.SolidWall | src/room/wall.ts:16-17 | the wall rectangle has exactly the given position and size, black fill, stroke width 0.05 |
| Door.GenerateDoor | src/room/door.ts:1-53 | one door path tagged with the direction, radius 9.6 times the wall thickness; its start and end lie on the wall's centre line, symmetric about the wall's centre and one radius apart, horizontally when width > height and vertically otherwise |
| Door.DoorArcIsQuarterCircle | src/room/door.ts:19-46 | the corner and end point are one radius from the hinge (the start point) and at a right angle to each other about it, and the sweep flag agrees with the sign of the turn from corner to end |
| Door.DoorSwingSide | src/room/door.ts:17-46 | the corner lies one radius from the hinge, perpendicular to the wall: down for `bottom`, right for `right`, and up or left for any other or absent direction |
| Door.DoorSweepFlag | src/room/door.ts:19-46 | the sweep flag is 0 in the bottom and left branches and 1 in the top and right branches |
| Window.GenerateWindow | src/room/window.ts:1-35 | one window rectangle tagged with the direction, centred on the wall, 20 thicknesses by one thickness for a horizontal wall and one by 20 otherwise, square walls included |
| Window.WindowProportions | src/room/window.ts:16-24 | for a wall of non-negative size both window sides are non-negative, the short side equals the wall thickness and the long side is 20 times it |
| Window.WindowIgnoresDirection | src/room/window.ts:27-34 | the window's position and size do not depend on the direction |
| Renderer.ViewBoxOf | src/renderer.ts:16-18 | the view box is the bounds' minX, minY, width and height, absent exactly when the bounds are |
| Renderer.Document | src/renderer.ts:16-31 | a floor's document opens with the root element and ends with the closing tag, everything between is a child element, and there are 2 pieces for a floor without rooms and 3 + the number of rooms otherwise |
| Renderer.RoomRectangles | src/renderer.ts:26-28 | one room rectangle per room, in declaration order |
| Renderer.Render | src/renderer.ts:6-33 | a plan with no floors renders to nothing; otherwise the output is the document of the first floor alone, so later floors and connections are ignored |
| Renderer.DocumentShape | src/renderer.ts:16-31 | the document opens with the root element carrying the floor's view box and ends with the closing tag; a floor without rooms has no children; otherwise the floor rectangle comes first and room i's rectangle is child i + 1, for 1 + the number of rooms children |
| Renderer.DocumentChildrenAreRectangles | src/renderer.ts:21-29 | every child of the document is a rectangle: no door or window glyph is drawn (Renderer.DocumentShape pins each child to the floor or a top-level room) |
| Renderer.DocumentIgnoresWallsAndSubRooms | src/renderer.ts:21-29 | floors whose top-level rooms agree in position and size render to the same document |

## Left out

- The parser and linker that build the input model, the browser editor, the chat
  assistant and all build configuration are outside this model; connections are
  part of the input model but the renderer never reads them.
- The ±Infinity starting values of the bounds accumulators are modelled as `None`
  (in the loop, as a flag saying whether any room has been seen), not as numbers.
- Renderer.ViewBoxOf: for a floor without rooms the source prints the view box
  "Infinity Infinity -Infinity -Infinity"; the model gives an absent view box.
- FloorBounds.GenerateFloorRectangle: requires a non-empty room list; on an empty
  one the source prints a rectangle with infinite coordinates, which is not modelled
  because its only caller never does so.
- JavaScript number formatting, the literal SVG text and its whitespace, the
  constant black stroke and the `xmlns` attribute are not modelled; coordinates are
  exact reals rather than IEEE doubles.
- `render` is asynchronous in the source but never suspends; it is modelled as a
  method that returns its result directly.
