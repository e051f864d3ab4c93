/** The canvas range slider that picks the altitude window: the `Rectangle`
    class (index.js:80-106) and the state `initSlider` keeps in its
    closures, updated by its mouse handlers and `redraw`
    (index.js:402-541). */
module Slider {
  import opened Flights
  import opened Segments

  /** Side of the square handles, in canvas pixels. */
  const DotSize: real := 20.0

  function Min(a: real, b: real): real { if a <= b then a else b }
  function Max(a: real, b: real): real { if a >= b then a else b }
  function Abs(a: real): real { if a >= 0.0 then a else -a }

  /** `isIn`: the point lies strictly inside the rectangle; its border is
      outside. */
  predicate Contains(x: real, y: real, width: real, height: real, px: real, py: real)
    ensures Contains(x, y, width, height, px, py) ==> width > 0.0 && height > 0.0
    ensures Contains(x, y, width, height, px, py) ==> px != x && px != x + width && py != y && py != y + height
  {
    x < px < x + width && y < py < y + height
  }

  /** The clamping `draw` does before painting: first the width is cut so
      the right edge does not pass the canvas, then a negative `x` is raised
      to 0. Because of that order, only a rectangle that starts at a
      non-negative `x` is sure to end inside the canvas. */
  function ClampToCanvas(x: real, width: real, canvasWidth: real): (r: (real, real))
    ensures r.0 >= 0.0 && r.1 <= width
    ensures x >= 0.0 ==> r.0 == x && r.0 + r.1 <= canvasWidth
    ensures x >= 0.0 && x + width <= canvasWidth ==> r == (x, width)
    ensures x < 0.0 ==> r.0 == 0.0 && r.1 == Min(width, canvasWidth - x)
  {
    var w := if x + width > canvasWidth then canvasWidth - x else width;
    (if x < 0.0 then 0.0 else x, w)
  }

  /** A rectangle that started left of the canvas and ran past its right
      edge still runs past it after one `draw`; a second `draw` brings it
      inside, and from then on `draw` changes nothing. */
  lemma ClampSettlesAfterTwoDraws(x: real, width: real, canvasWidth: real)
    ensures var (x1, w1) := ClampToCanvas(x, width, canvasWidth);
      && (x < 0.0 && x + width > canvasWidth ==> x1 + w1 > canvasWidth)
      && var (x2, w2) := ClampToCanvas(x1, w1, canvasWidth);
      && x2 >= 0.0 && x2 + w2 <= canvasWidth
      && ClampToCanvas(x2, w2, canvasWidth) == (x2, w2)
  {
    var (x1, w1) := ClampToCanvas(x, width, canvasWidth);
    var (x2, w2) := ClampToCanvas(x1, w1, canvasWidth);
    assert x2 == x1;
  }

  /** A point inside a drawn rectangle that started at a non-negative `x`
      lies strictly inside the canvas horizontally. */
  lemma InsideDrawnIsOnCanvas(x: real, y: real, width: real, height: real, canvasWidth: real, px: real, py: real)
    requires x >= 0.0
    requires Contains(ClampToCanvas(x, width, canvasWidth).0, y, ClampToCanvas(x, width, canvasWidth).1, height, px, py)
    ensures 0.0 < px < canvasWidth
  {
  }

  /** Where the mousemove handler leaves the dragged handle, from its
      position `x` and the pointer position `pos`. The second test runs on
      the updated `x`, so the `x = 0` of the first test never survives: a
      handle at or left of -1 simply follows the pointer. */
  function DragTo(x: real, pos: real): (r: real)
    ensures r == pos || r == 200.0 - DotSize
    ensures x <= -1.0 ==> r == pos
    ensures x > -1.0 ==> r < 201.0 - DotSize && (pos < 201.0 - DotSize ==> r == pos)
  {
    var first := if x > -1.0 then pos else 0.0;
    if first < 201.0 - DotSize then pos else 200.0 - DotSize
  }

  /** `minValue` and `maxValue` from the range rectangle's `x` and the two
      handles: canvas positions scaled to 0 .. 16500 and cut to that range
      (the right handle's far edge gives the top of the window). */
  function AltitudeWindow(rangeX: real, x1: real, x2: real, canvasWidth: real): (w: (real, real))
    requires canvasWidth > 0.0
    ensures 0.0 <= w.0 && w.1 <= MaxAltitude
    ensures rangeX >= 0.0 ==> w.0 == rangeX * MaxAltitude / canvasWidth
    ensures Max(x1, x2) + DotSize <= canvasWidth ==> w.1 == (Max(x1, x2) + DotSize) * MaxAltitude / canvasWidth
    ensures rangeX < 0.0 ==> w.0 == 0.0
    ensures Max(x1, x2) + DotSize > canvasWidth ==> w.1 == MaxAltitude
  {
    var lo := rangeX * MaxAltitude / canvasWidth;
    var hi := (Max(x1, x2) + DotSize) * MaxAltitude / canvasWidth;
    ScaleWithin(rangeX, canvasWidth);
    ScaleWithin(Max(x1, x2) + DotSize, canvasWidth);
    (if lo >= 0.0 then lo else 0.0, if hi <= 16500.0 then hi else 16500.0)
  }

  lemma ScaleWithin(v: real, canvasWidth: real)
    requires canvasWidth > 0.0
    ensures v <= canvasWidth ==> v * MaxAltitude / canvasWidth <= MaxAltitude
    ensures v > canvasWidth ==> v * MaxAltitude / canvasWidth > MaxAltitude
    ensures v < 0.0 ==> v * MaxAltitude / canvasWidth < 0.0
  {
    assert canvasWidth * MaxAltitude / canvasWidth == MaxAltitude;
    if v <= canvasWidth {
      assert v * MaxAltitude <= canvasWidth * MaxAltitude;
    } else {
      assert v * MaxAltitude > canvasWidth * MaxAltitude;
    }
  }

  /** After `redraw`, the altitude window is never inverted, provided the
      rectangle's left end is on the canvas. */
  lemma RedrawnWindowOrdered(a1: real, a2: real, w1: real, w2: real, canvasWidth: real)
    requires canvasWidth > 0.0 && Min(a1, a2) <= canvasWidth
    ensures var rangeX := ClampToCanvas(Min(a1, a2), Abs(a1 - a2), canvasWidth).0;
      var w := AltitudeWindow(rangeX, ClampToCanvas(a1, w1, canvasWidth).0, ClampToCanvas(a2, w2, canvasWidth).0, canvasWidth);
      w.0 <= w.1
  {
    var rangeX := ClampToCanvas(Min(a1, a2), Abs(a1 - a2), canvasWidth).0;
    var h1, h2 := ClampToCanvas(a1, w1, canvasWidth).0, ClampToCanvas(a2, w2, canvasWidth).0;
    var top := Max(h1, h2) + DotSize;
    assert 0.0 <= rangeX <= top && rangeX <= canvasWidth;
    var w := AltitudeWindow(rangeX, h1, h2, canvasWidth);
    assert w.0 == rangeX * MaxAltitude / canvasWidth;
    ScaleMonotone(rangeX, top, canvasWidth);
    ScaleWithin(rangeX, canvasWidth);
  }

  lemma ScaleMonotone(a: real, b: real, canvasWidth: real)
    requires canvasWidth > 0.0 && a <= b
    ensures a * MaxAltitude / canvasWidth <= b * MaxAltitude / canvasWidth
  {
    var k := MaxAltitude / canvasWidth;
    assert k > 0.0;
    assert a * MaxAltitude / canvasWidth == a * k;
    assert b * MaxAltitude / canvasWidth == b * k;
    assert (b - a) * k >= 0.0;
  }

  /** `Rectangle`: a shape on the slider canvas. */
  class Rectangle {
    var x: real
    var y: real
    var width: real
    var height: real
    const canvasWidth: real

    constructor (x: real, y: real, width: real, height: real, canvasWidth: real)
      ensures this.x == x && this.y == y && this.width == width && this.height == height
      ensures this.canvasWidth == canvasWidth
    {
      this.x, this.y, this.width, this.height := x, y, width, height;
      this.canvasWidth := canvasWidth;
    }

    /** `isIn(posX, posY)`. */
    predicate IsIn(posX: real, posY: real)
      reads this
    {
      Contains(x, y, width, height, posX, posY)
    }

    /** `draw`: the clamping, then painting (not modelled). */
    method Draw()
      modifies this
      ensures (x, width) == ClampToCanvas(old(x), old(width), canvasWidth)
      ensures y == old(y) && height == old(height)
    {
      if x + width > canvasWidth {
        width := canvasWidth - x;
      }
      if x < 0.0 {
        x := 0.0;
      }
    }
  }

  /** The two tests of the mousemove listener that move the held handle to
      the pointer position `pos`. */
  method DragHandle(dot: Rectangle, pos: real)
    modifies dot
    ensures dot.x == DragTo(old(dot.x), pos)
    ensures dot.y == old(dot.y) && dot.width == old(dot.width) && dot.height == old(dot.height)
  {
    if dot.x > -1.0 {
      dot.x := pos;
    } else {
      dot.x := 0.0;
    }
    if dot.x < 201.0 - DotSize {
      dot.x := pos;
    } else {
      dot.x := 200.0 - DotSize;
    }
  }

  /** Which handle a press picked up (`currentDot`). */
  datatype Grip = NoGrip | First | Second

  /** The slider: two handles, the range rectangle between them, the
      pointer state of the handlers, the altitude window and the index list
      handed to the line geometry. */
  class RangeSlider {
    const handle1: Rectangle
    const handle2: Rectangle
    const range: Rectangle
    const canvasWidth: real
    const vols: seq<Vol>
    var grip: Grip
    var isClicked: bool
    var inCanvas: bool
    var minValue: real
    var maxValue: real
    var lineIndices: seq<nat>

    /** Three distinct rectangles on one canvas of positive width. */
    ghost predicate Shapes()
      reads this
    {
      && handle1 != handle2 && handle1 != range && handle2 != range
      && handle1.canvasWidth == canvasWidth && handle2.canvasWidth == canvasWidth && range.canvasWidth == canvasWidth
      && canvasWidth > 0.0
    }

    /** Between events both handles sit at a non-negative `x`: every event
        that moves them ends with a `draw`. */
    ghost predicate Valid()
      reads this, handle1, handle2
    {
      Shapes() && handle1.x >= 0.0 && handle2.x >= 0.0
    }

    /** `initSlider`: the left handle at 0, the right one at the right end,
        the range rectangle between them, all three drawn; the window is the
        whole 0 .. 16500 and the line geometry shows every segment. */
    constructor (canvasWidth: real, canvasHeight: real, vols: seq<Vol>)
      requires canvasWidth > 0.0
      ensures Valid() && fresh(handle1) && fresh(handle2) && fresh(range)
      ensures this.canvasWidth == canvasWidth && this.vols == vols
      ensures handle1.x == 0.0 && handle1.width == Min(DotSize, canvasWidth)
      ensures handle2.x == Max(0.0, canvasWidth - DotSize) && handle2.width == DotSize
      ensures range.x == 0.0 && range.width == canvasWidth - DotSize
      ensures handle1.y == canvasHeight / 2.0 - DotSize / 2.0 && handle1.height == DotSize
      ensures handle2.y == canvasHeight / 2.0 - DotSize / 2.0 && handle2.height == DotSize
      ensures range.y == 2.0 && range.height == canvasHeight - 4.0
      ensures minValue == 0.0 && maxValue == MaxAltitude && !isClicked && !inCanvas && grip == NoGrip
      ensures lineIndices == Flatten(SegmentStarts(vols, Steps(vols)))
    {
      var h1 := new Rectangle(0.0, canvasHeight / 2.0 - DotSize / 2.0, DotSize, DotSize, canvasWidth);
      var h2 := new Rectangle(canvasWidth - DotSize, canvasHeight / 2.0 - DotSize / 2.0, DotSize, DotSize, canvasWidth);
      var r := new Rectangle(h1.x, 2.0, h2.x - h1.x, canvasHeight - 4.0, canvasWidth);
      r.Draw();
      h1.Draw();
      h2.Draw();
      var indices, _ := BuildLineData(vols);
      handle1, handle2, range := h1, h2, r;
      this.canvasWidth := canvasWidth;
      this.vols := vols;
      grip := NoGrip;
      isClicked, inCanvas := false, false;
      minValue, maxValue := 0.0, MaxAltitude;
      lineIndices := indices;
    }

    /** The rectangles after `redraw` from handle positions `a1`, `a2` and
        widths `w1`, `w2`. */
    ghost predicate RedrawnFrom(a1: real, w1: real, a2: real, w2: real)
      reads this, handle1, handle2, range
    {
      && (range.x, range.width) == ClampToCanvas(Min(a1, a2), Abs(a1 - a2), canvasWidth)
      && (handle1.x, handle1.width) == ClampToCanvas(a1, w1, canvasWidth)
      && (handle2.x, handle2.width) == ClampToCanvas(a2, w2, canvasWidth)
    }

    /** `redraw`: the range rectangle is stretched between the two handles,
        then all three are drawn. */
    method Redraw()
      requires Shapes()
      modifies handle1, handle2, range
      ensures Valid()
      ensures RedrawnFrom(old(handle1.x), old(handle1.width), old(handle2.x), old(handle2.width))
      ensures handle1.y == old(handle1.y) && handle2.y == old(handle2.y) && range.y == old(range.y)
      ensures handle1.height == old(handle1.height) && handle2.height == old(handle2.height) && range.height == old(range.height)
    {
      range.x := Min(handle1.x, handle2.x);
      range.width := Abs(handle1.x - handle2.x);
      range.Draw();
      handle1.Draw();
      handle2.Draw();
    }

    /** The canvas `mousedown` listener: pick up the first handle under the
        pointer. A press elsewhere drops the grip but leaves `isClicked`. */
    method MouseDown(layerX: real, layerY: real)
      requires Valid()
      modifies this
      ensures Valid()
      ensures grip == if handle1.IsIn(layerX, layerY) then First else if handle2.IsIn(layerX, layerY) then Second else NoGrip
      ensures isClicked == (grip != NoGrip || old(isClicked))
      ensures inCanvas == old(inCanvas) && minValue == old(minValue) && maxValue == old(maxValue) && lineIndices == old(lineIndices)
    {
      if handle1.IsIn(layerX, layerY) {
        grip := First;
        isClicked := true;
      } else if handle2.IsIn(layerX, layerY) {
        grip := Second;
        isClicked := true;
      } else {
        grip := NoGrip;
      }
    }

    /** The `mouseup` listener on the page body. */
    method BodyMouseUp()
      modifies this
      ensures !isClicked && grip == old(grip) && inCanvas == old(inCanvas)
      ensures minValue == old(minValue) && maxValue == old(maxValue) && lineIndices == old(lineIndices)
    {
      isClicked := false;
    }

    /** The canvas `mouseup` listener: release and redraw. */
    method CanvasMouseUp()
      requires Valid()
      modifies this, handle1, handle2, range
      ensures Valid() && !isClicked && grip == old(grip) && inCanvas == old(inCanvas)
      ensures RedrawnFrom(old(handle1.x), old(handle1.width), old(handle2.x), old(handle2.width))
      ensures handle1.y == old(handle1.y) && handle2.y == old(handle2.y) && range.y == old(range.y)
      ensures handle1.height == old(handle1.height) && handle2.height == old(handle2.height) && range.height == old(range.height)
      ensures minValue == old(minValue) && maxValue == old(maxValue) && lineIndices == old(lineIndices)
    {
      isClicked := false;
      Redraw();
    }

    /** The canvas `mouseenter` and `mouseleave` listeners. */
    method SetInCanvas(entered: bool)
      modifies this
      ensures inCanvas == entered && isClicked == old(isClicked) && grip == old(grip)
      ensures minValue == old(minValue) && maxValue == old(maxValue) && lineIndices == old(lineIndices)
    {
      inCanvas := entered;
    }

    /** The tail of the mousemove listener: the altitude window from the
        drawn rectangles, then `getVolsMatches` for the line geometry. */
    method UpdateWindow()
      requires Valid()
      modifies this
      ensures Valid() && grip == old(grip) && isClicked == old(isClicked) && inCanvas == old(inCanvas)
      ensures (minValue, maxValue) == AltitudeWindow(range.x, handle1.x, handle2.x, canvasWidth)
      ensures lineIndices == Flatten(MatchStarts(vols, minValue, maxValue, Steps(vols)))
    {
      minValue := if range.x * MaxAltitude / canvasWidth >= 0.0 then range.x * MaxAltitude / canvasWidth else 0.0;
      maxValue := if (Max(handle1.x, handle2.x) + DotSize) * MaxAltitude / canvasWidth <= 16500.0
                  then (Max(handle1.x, handle2.x) + DotSize) * MaxAltitude / canvasWidth else 16500.0;
      lineIndices := GetVolsMatches(vols, minValue, maxValue);
    }

    /** The document `mousemove` listener of the slider. While a handle is
        held and the pointer is within the canvas's horizontal extent, the
        handle follows the pointer, everything is redrawn, the altitude window
        is recomputed and the line geometry gets the matching segments. With
        no handle held the listener throws before changing anything. */
    method MouseMove(clientX: real, canvasLeft: real, canvasRight: real, layerX: real)
      requires Valid()
      modifies this, handle1, handle2, range
      ensures Valid() && grip == old(grip) && isClicked == old(isClicked) && inCanvas == old(inCanvas)
      ensures var moving := old(isClicked) && !(clientX > canvasRight || clientX < canvasLeft) && old(grip) != NoGrip;
        var pos := if old(inCanvas) then layerX else layerX - canvasLeft;
        var a1 := if old(grip) == First then DragTo(old(handle1.x), pos) else old(handle1.x);
        var a2 := if old(grip) == Second then DragTo(old(handle2.x), pos) else old(handle2.x);
        if moving then
          && RedrawnFrom(a1, old(handle1.width), a2, old(handle2.width))
          && (minValue, maxValue) == AltitudeWindow(range.x, handle1.x, handle2.x, canvasWidth)
          && (canvasWidth >= 201.0 - DotSize ==> minValue <= maxValue)
          && lineIndices == Flatten(MatchStarts(vols, minValue, maxValue, Steps(vols)))
        else
          && handle1.x == old(handle1.x) && handle1.width == old(handle1.width)
          && handle2.x == old(handle2.x) && handle2.width == old(handle2.width)
          && range.x == old(range.x) && range.width == old(range.width)
          && minValue == old(minValue) && maxValue == old(maxValue) && lineIndices == old(lineIndices)
      ensures handle1.y == old(handle1.y) && handle2.y == old(handle2.y) && range.y == old(range.y)
      ensures handle1.height == old(handle1.height) && handle2.height == old(handle2.height) && range.height == old(range.height)
    {
      if isClicked && !(clientX > canvasRight || clientX < canvasLeft) && grip != NoGrip {
        var dot := if grip == First then handle1 else handle2;
        var pos := if inCanvas then layerX else layerX - canvasLeft;
        DragHandle(dot, pos);
        ghost var a1, a2 := handle1.x, handle2.x;
        Redraw();
        if canvasWidth >= 201.0 - DotSize {
          RedrawnWindowOrdered(a1, a2, old(handle1.width), old(handle2.width), canvasWidth);
        }
        UpdateWindow();
      }
    }
  }
}
