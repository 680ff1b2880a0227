/** The window glyph: a thin rectangle centred on the wall, one wall thickness
    across and twenty thicknesses along the wall. */
module Window {

  import opened Ast
  import opened Svg

  /** How many wall thicknesses long a window is. */
  const WindowLengthFactor: real := 20.0

  /** The window for the wall rectangle `(x, y, width, height)`; the direction
      only tags the element. */
  function GenerateWindow(x: real, y: real, width: real, height: real, direction: Option<string>): (w: Element)
    ensures w.WindowRect? && w.direction == direction
    // centred on the wall
    ensures w.x + w.width / 2.0 == x + width / 2.0
    ensures w.y + w.height / 2.0 == y + height / 2.0
    // long side along the wall, short side the wall's thickness; a square wall counts as vertical
    ensures IsHorizontal(width, height) ==>
      w.width == WindowLengthFactor * Min(width, height) && w.height == Min(width, height)
    ensures !IsHorizontal(width, height) ==>
      w.width == Min(width, height) && w.height == WindowLengthFactor * Min(width, height)
  {
    var centerX := x + width / 2.0;
    var centerY := y + height / 2.0;
    var thickness := Min(width, height);
    var windowWidth := if IsHorizontal(width, height) then thickness * WindowLengthFactor else thickness;
    var windowHeight := if IsHorizontal(width, height) then thickness else thickness * WindowLengthFactor;
    WindowRect(centerX - windowWidth / 2.0, centerY - windowHeight / 2.0, windowWidth, windowHeight, direction)
  }

  /** For a wall of non-negative size the window's short side is exactly the wall
      thickness, its long side twenty times that, and both are non-negative. */
  lemma WindowProportions(x: real, y: real, width: real, height: real, direction: Option<string>)
    requires width >= 0.0 && height >= 0.0
    ensures var w := GenerateWindow(x, y, width, height, direction);
      && w.width >= 0.0 && w.height >= 0.0
      && Min(w.width, w.height) == Min(width, height)
      && Max(w.width, w.height) == WindowLengthFactor * Min(width, height)
  {
  }

  /** The window's geometry does not depend on the wall direction. */
  lemma WindowIgnoresDirection(x: real, y: real, width: real, height: real, d1: Option<string>, d2: Option<string>)
    ensures var w1 := GenerateWindow(x, y, width, height, d1);
      var w2 := GenerateWindow(x, y, width, height, d2);
      w1.x == w2.x && w1.y == w2.y && w1.width == w2.width && w1.height == w2.height
  {
  }
}
