/**
 * PaintScript: the painting canvas. A `textureWidth` by `textureHeight`
 * pixel buffer, a brush of integer radius stamped into it, a clear
 * operation, and the paint/erase state driven by the two mouse buttons.
 *
 * The texture is a two-dimensional array indexed `[x, y]` as
 * `Texture2D.SetPixel(x, y, …)` is. Mapping the mouse position to a
 * pixel goes through float arithmetic and a truncating cast; it is not
 * modelled, and the pixel it yields is a parameter of `Update`.
 */
module Paint {
  import opened Engine

  /**
   * The brush footprint around its centre: the offsets of the half-open
   * square [-r, r) x [-r, r) that lie within distance r. The square is
   * half-open, so the footprint is lopsided: offsets with dx == r or
   * dy == r are never in it, while dx == -r or dy == -r can be.
   */
  predicate InFootprint(dx: int, dy: int, r: int) {
    -r <= dx < r && -r <= dy < r && dx * dx + dy * dy <= r * r
  }

  /**
   * The footprint offsets that the nested loops of DrawCircle have visited
   * before reaching offset (x, y): all of columns -r .. x-1, and column x
   * below row y.
   */
  predicate VisitedBefore(dx: int, dy: int, r: int, x: int, y: int) {
    InFootprint(dx, dy, r) && (dx < x || (dx == x && dy < y))
  }

  /** What one mouse button did in this frame. */
  datatype MouseButton = MouseButton(
    down: bool,   // Input.GetMouseButtonDown
    held: bool,   // Input.GetMouseButton
    up: bool)     // Input.GetMouseButtonUp

  /**
   * The flag a button drives (isPainting for the left, isErasing for the
   * right): set on press, kept while held, cleared on release, in the
   * order the if/else-if chain tests those.
   */
  function NextFlag(flag: bool, button: MouseButton): (next: bool)
    ensures button.down ==> next
    ensures !button.down && button.up && !button.held ==> !next
    ensures !button.down && !button.up ==> next == flag
    ensures !button.down && button.held ==> next == flag
  {
    if button.down then true
    else if button.held then flag
    else if button.up then false
    else flag
  }

  /**
   * The colour the brush paints with after a right-button event: pressing
   * saves it and switches to white; releasing brings the saved one back.
   */
  function NextPaintColor(paintColor: Color, previousColor: Color, right: MouseButton): (c: Color)
    ensures right.down ==> c == White
    ensures !right.down && !right.held && right.up ==> c == previousColor
    ensures !right.down && (right.held || !right.up) ==> c == paintColor
  {
    if right.down then White
    else if right.held then paintColor
    else if right.up then previousColor
    else paintColor
  }

  /** The colour saved for the end of erasing: the paint colour at the moment of the right press. */
  function NextPreviousColor(paintColor: Color, previousColor: Color, right: MouseButton): (c: Color)
  {
    if right.down then paintColor else previousColor
  }

  /**
   * Save and restore: the colour saved by a right press is the one given
   * back by the right release, whatever colour was chosen in between.
   */
  lemma SaveRestore(before: Color, saved: Color, chosen: Color)
    ensures NextPaintColor(chosen, NextPreviousColor(before, saved, MouseButton(true, true, false)),
                           MouseButton(false, false, true)) == before
  {
  }

  /** Whether the brush stamped at (cx, cy) covers pixel (x, y). */
  predicate Covers(cx: int, cy: int, r: int, x: int, y: int) {
    InFootprint(x - cx, y - cy, r)
  }

  /** A footprint entirely left, right, below or above the buffer reaches no pixel of it. */
  lemma FootprintOutside(cx: int, cy: int, r: int, width: int, height: int)
    requires cx + r <= 0 || cx - r >= width || cy + r <= 0 || cy - r >= height
    ensures forall x, y :: 0 <= x < width && 0 <= y < height ==> !Covers(cx, cy, r, x, y)
  {
  }

  /** The lopsided footprint: the left and bottom edge offsets are painted, the right and top ones never. */
  lemma FootprintLopsided(r: int)
    requires r > 0
    ensures InFootprint(-r, 0, r) && InFootprint(0, -r, r)
    ensures forall d :: !InFootprint(r, d, r) && !InFootprint(d, r, r)
  {
  }

  class PaintScript {
    const textureWidth: nat
    const textureHeight: nat
    /** null until Start has created it. */
    var texture: array2?<Color>
    var brushSize: int
    var paintColor: Color
    var previousColor: Color
    var isPainting: bool
    var isErasing: bool

    /** Once created, the texture has the configured size. */
    ghost predicate Valid()
      reads this
    {
      texture != null ==> texture.Length0 == textureWidth && texture.Length1 == textureHeight
    }

    predicate InBounds(x: int, y: int)
    {
      0 <= x < textureWidth && 0 <= y < textureHeight
    }

    /** The component as the scene creates it, before Start. */
    constructor (width: nat, height: nat)
      ensures Valid()
      ensures textureWidth == width && textureHeight == height && texture == null
      ensures brushSize == 10 && paintColor == Red && previousColor == ClearColor
      ensures !isPainting && !isErasing
    {
      textureWidth, textureHeight := width, height;
      texture := null;
      brushSize := 10;
      paintColor := Red;
      previousColor := ClearColor;
      isPainting, isErasing := false, false;
    }

    /** Start: create the texture and clear it to white. */
    method Start()
      modifies this
      ensures Valid() && texture != null && fresh(texture)
      ensures forall x, y :: InBounds(x, y) ==> texture[x, y] == White
      ensures brushSize == old(brushSize) && paintColor == old(paintColor)
      ensures previousColor == old(previousColor)
      ensures isPainting == old(isPainting) && isErasing == old(isErasing)
    {
      texture := new Color[textureWidth, textureHeight];
      ClearCanvas();
    }

    /**
     * DrawCircle: stamp the brush at (cx, cy) with `paintColor`. Exactly the
     * in-bounds pixels whose offset lies in the footprint change, and they
     * all become `paintColor`; no other pixel is touched.
     */
    method DrawCircle(cx: int, cy: int)
      requires Valid() && texture != null
      modifies texture
      ensures forall x, y :: InBounds(x, y) ==>
                texture[x, y] == if Covers(cx, cy, brushSize, x, y) then paintColor else old(texture[x, y])
    {
      var r := brushSize;
      var x := -r;
      while x < r
        invariant -r <= x
        invariant forall i, j :: InBounds(i, j) ==>
                    texture[i, j] == if VisitedBefore(i - cx, j - cy, r, x, -r) then paintColor else old(texture[i, j])
        decreases r - x
      {
        var y := -r;
        while y < r
          invariant -r <= y
          invariant forall i, j :: InBounds(i, j) ==>
                      texture[i, j] == if VisitedBefore(i - cx, j - cy, r, x, y) then paintColor else old(texture[i, j])
          decreases r - y
        {
          if x * x + y * y <= r * r {
            var px := cx + x;
            var py := cy + y;
            if px >= 0 && px < textureWidth && py >= 0 && py < textureHeight {
              texture[px, py] := paintColor;
            }
          }
          y := y + 1;
        }
        x := x + 1;
      }
    }

    /** Texture2D.SetPixels: the flat array is read row by row, bottom row first. */
    method SetPixels(colors: array<Color>)
      requires Valid() && texture != null
      requires colors.Length == textureWidth * textureHeight
      modifies texture
      ensures forall x, y :: InBounds(x, y) ==> FlatIndex(x, y, textureWidth) < colors.Length
      ensures forall x, y :: InBounds(x, y) ==> texture[x, y] == colors[FlatIndex(x, y, textureWidth)]
    {
      forall x, y | InBounds(x, y)
        ensures 0 <= FlatIndex(x, y, textureWidth) < colors.Length
      {
        FlatIndexInRange(x, y, textureWidth, textureHeight);
      }
      forall x, y | 0 <= x < textureWidth && 0 <= y < textureHeight {
        texture[x, y] := colors[FlatIndex(x, y, textureWidth)];
      }
    }

    /**
     * ClearCanvas: fill a buffer of `textureWidth * textureHeight` whites and,
     * when the texture exists, copy it in. With no texture nothing changes.
     */
    method ClearCanvas()
      requires Valid()
      modifies texture
      ensures texture != null ==> forall x, y :: InBounds(x, y) ==> texture[x, y] == White
    {
      var fillColor := new Color[textureWidth * textureHeight];
      var i := 0;
      while i < fillColor.Length
        invariant 0 <= i <= fillColor.Length
        invariant forall k :: 0 <= k < i ==> fillColor[k] == White
      {
        fillColor[i] := White;
        i := i + 1;
      }
      if texture != null {
        SetPixels(fillColor);
      }
    }

    /**
     * BrushSlider: round the slider value to the nearest integer (ties to
     * even) and clamp it to [1, 100].
     */
    method BrushSlider(newSize: real)
      modifies this`brushSize
      ensures 1 <= brushSize <= 100
      ensures brushSize == ClampInt(RoundToInt(newSize), 1, 100)
      ensures newSize == newSize.Floor as real && 1 <= newSize.Floor <= 100 ==> brushSize == newSize.Floor
    {
      brushSize := ClampInt(RoundToInt(newSize), 1, 100);
    }

    /**
     * Update: one frame of mouse handling. The left button drives
     * isPainting, the right button isErasing together with the save/swap/
     * restore of the paint colour; then the brush is stamped at `(cx, cy)`
     * once for each flag that is set, both times with the same colour.
     */
    method Update(left: MouseButton, right: MouseButton, cx: int, cy: int)
      requires Valid()
      requires NextFlag(isPainting, left) || NextFlag(isErasing, right) ==> texture != null
      modifies this`isPainting, this`isErasing, this`paintColor, this`previousColor, texture
      ensures isPainting == NextFlag(old(isPainting), left)
      ensures isErasing == NextFlag(old(isErasing), right)
      ensures paintColor == NextPaintColor(old(paintColor), old(previousColor), right)
      ensures previousColor == NextPreviousColor(old(paintColor), old(previousColor), right)
      ensures texture != null ==> forall x, y :: InBounds(x, y) ==>
                texture[x, y] == if (isPainting || isErasing) && Covers(cx, cy, brushSize, x, y)
                                 then paintColor else old(texture[x, y])
    {
      if left.down {
        isPainting := true;
      } else if left.held {
        // ContinuePainting: nothing to do
      } else if left.up {
        isPainting := false;
      }
      if right.down {
        isErasing := true;
        previousColor := paintColor;
        paintColor := White;
      } else if right.held {
        // ContinueErasing: nothing to do
      } else if right.up {
        isErasing := false;
        paintColor := previousColor;
      }
      if isPainting {
        DrawCircle(cx, cy);
      }
      if isErasing {
        DrawCircle(cx, cy);
      }
    }
  }

  /** The position of pixel (x, y) in a flat, row-by-row pixel buffer. */
  function FlatIndex(x: int, y: int, width: int): (i: int) {
    y * width + x
  }

  /** A pixel of the grid has its position inside the flat buffer. */
  lemma FlatIndexInRange(x: int, y: int, width: nat, height: nat)
    requires 0 <= x < width && 0 <= y < height
    ensures 0 <= FlatIndex(x, y, width) < width * height
  {
    MulMonotone(y, height - 1, width);
    assert (height - 1) * width == height * width - width;
  }

  lemma MulMonotone(a: int, b: int, c: nat)
    requires 0 <= a <= b
    ensures 0 <= a * c <= b * c
  {
  }

  /**
   * The erase gesture: pressing the right button takes white, changes of
   * colour while it is held are lost, and releasing brings back the colour
   * from before the press.
   */
  method EraseGestureRestoresColor(canvas: PaintScript, chosenWhileErasing: Color)
    requires canvas.Valid() && canvas.texture != null
    modifies canvas, canvas.texture
    ensures canvas.paintColor == old(canvas.paintColor)
    ensures !canvas.isErasing
  {
    var idle := MouseButton(false, false, false);
    canvas.Update(idle, MouseButton(true, true, false), 0, 0);
    assert canvas.paintColor == White && canvas.isErasing;
    canvas.paintColor := chosenWhileErasing;
    canvas.Update(idle, MouseButton(false, false, true), 0, 0);
  }
}
