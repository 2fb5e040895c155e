/**
 * PlayerController: the player's tool state. Number keys pick a palette
 * colour for both the controller and the canvas, Enter builds a
 * submission and hands it to the game manager, C clears the canvas.
 *
 * The submission is not read from the painting: its emotion and accessory
 * are fixed placeholders and both colours are the current colour. That
 * alone decides which customers can ever be satisfied.
 *
 * Keyboard state is a parameter: `keys` holds each i whose key
 * `Alpha1 + i` went down this frame. The game manager singleton is passed
 * in as a possibly-null reference.
 */
module Player {
  import opened Engine
  import opened Npc
  import opened Paint
  import opened Game

  /** The record SubmitPainting builds from the current colour. */
  function PlaceholderSubmission(currentColor: Color): (s: Submission) {
    Submission("Happy", currentColor, currentColor, "None")
  }

  /** A placeholder submission can satisfy only a happy customer without accessory. */
  lemma OnlyHappyPlainCustomersMatch(target: Attributes, c: Color)
    requires CompareWithSubmission(target, PlaceholderSubmission(c))
    ensures target.emotion == "Happy" && target.accessory == "None"
  {
  }

  /**
   * Of all the customers GenerateRandomAttributes can draw, the player's
   * submission matches exactly those with the first emotion and the first
   * accessory whose hair and eye colours are both close to the current colour.
   */
  lemma MatchableDraws(d: Draw, c: Color)
    requires ValidDraw(d)
    ensures CompareWithSubmission(Generate(d), PlaceholderSubmission(c)) <==>
              && d.emotionIndex == 0 && d.accessoryIndex == 0
              && ColorsAreClose(c, Rgb(d.hairR, d.hairG, d.hairB), MatchThreshold)
              && ColorsAreClose(c, Rgb(d.eyeR, d.eyeG, d.eyeB), MatchThreshold)
  {
  }

  /** The palette the component declares: red, blue, green, yellow, black. */
  const DefaultPalette: seq<Color> := [Red, Blue, Green, Yellow, Black]

  /**
   * With the declared palette, keys 1 to 5 select a colour, and ColorToName
   * tells the five colours apart.
   */
  lemma DefaultPaletteKeys()
    ensures KeyLimit(|DefaultPalette|) == 5
    ensures forall i :: 0 <= i < 5 ==> ColorToName(DefaultPalette[i]) == ["Red", "Blue", "Green", "Yellow", "Black"][i]
  {
  }

  /** How many number keys select a colour: the palette size, at most nine. */
  function KeyLimit(paletteSize: nat): (n: nat)
    ensures n <= 9 && n <= paletteSize
    ensures n == 9 || n == paletteSize
  {
    MinInt(paletteSize, 9)
  }

  /** The highest i < n whose key went down, if any. */
  function HighestPressed(keys: set<int>, n: nat): (k: Option<nat>)
    ensures k.Some? ==> k.value < n && k.value in keys
    ensures k.Some? ==> forall j :: k.value < j < n ==> j !in keys
    ensures k.None? ==> forall j :: 0 <= j < n ==> j !in keys
  {
    if n == 0 then None
    else if n - 1 in keys then Some(n - 1)
    else HighestPressed(keys, n - 1)
  }

  /** The colour the number keys leave selected: the highest pressed key wins. */
  function SelectedColor(palette: seq<Color>, keys: set<int>, current: Color): (c: Color)
    ensures (forall j :: 0 <= j < KeyLimit(|palette|) ==> j !in keys) ==> c == current
    ensures (exists j :: 0 <= j < KeyLimit(|palette|) && j in keys) ==>
              exists k :: 0 <= k < KeyLimit(|palette|) && k in keys && c == palette[k]
                          && forall j :: k < j < KeyLimit(|palette|) ==> j !in keys
  {
    match HighestPressed(keys, KeyLimit(|palette|))
    case Some(k) => palette[k]
    case None => current
  }

  class PlayerController {
    /** The palette as the inspector sets it. */
    const availableColors: seq<Color>
    /** The PaintScript found in the scene, if there is one. */
    const paint: PaintScript?
    var brushSize: real
    var currentColor: Color
    var currentSubmission: Option<Submission>

    constructor (palette: seq<Color>, canvas: PaintScript?)
      ensures availableColors == palette && paint == canvas
      ensures brushSize == 0.1 && currentColor == Red && currentSubmission == None
    {
      availableColors := palette;
      paint := canvas;
      brushSize := 0.1;
      currentColor := Red;
      currentSubmission := None;
    }

    /** Start: with a non-empty palette, select its first colour everywhere. */
    method Start()
      modifies this`currentColor, paint
      ensures |availableColors| > 0 ==> currentColor == availableColors[0]
      ensures |availableColors| > 0 && paint != null ==> paint.paintColor == availableColors[0]
      ensures |availableColors| == 0 ==> currentColor == old(currentColor)
      ensures paint != null ==> paint.texture == old(paint.texture) && paint.brushSize == old(paint.brushSize)
      ensures paint != null && |availableColors| == 0 ==> paint.paintColor == old(paint.paintColor)
      ensures paint != null ==> paint.isPainting == old(paint.isPainting) && paint.isErasing == old(paint.isErasing)
                                && paint.previousColor == old(paint.previousColor)
    {
      if |availableColors| > 0 {
        currentColor := availableColors[0];
        if paint != null {
          paint.paintColor := currentColor;
        }
      }
    }

    /** The number-key loop of Update. */
    method SelectColorByKey(keys: set<int>)
      requires HighestPressed(keys, KeyLimit(|availableColors|)).Some? ==> paint != null
      modifies this`currentColor, paint
      ensures currentColor == SelectedColor(availableColors, keys, old(currentColor))
      ensures paint != null ==> paint.paintColor == SelectedColor(availableColors, keys, old(paint.paintColor))
      ensures paint != null ==> paint.texture == old(paint.texture) && paint.brushSize == old(paint.brushSize)
      ensures paint != null ==> paint.isPainting == old(paint.isPainting) && paint.isErasing == old(paint.isErasing)
                                && paint.previousColor == old(paint.previousColor)
    {
      var n := MinInt(|availableColors|, 9);
      for i := 0 to n
        invariant HighestPressed(keys, i).Some? ==> paint != null
        invariant currentColor == match HighestPressed(keys, i)
                                  case Some(k) => availableColors[k]
                                  case None => old(currentColor)
        invariant paint != null ==> paint.paintColor == match HighestPressed(keys, i)
                                                        case Some(k) => availableColors[k]
                                                        case None => old(paint.paintColor)
        invariant paint != null ==> paint.texture == old(paint.texture) && paint.brushSize == old(paint.brushSize)
        invariant paint != null ==> paint.isPainting == old(paint.isPainting) && paint.isErasing == old(paint.isErasing)
                                    && paint.previousColor == old(paint.previousColor)
      {
        if i in keys {
          currentColor := availableColors[i];
          paint.paintColor := availableColors[i];
        }
      }
    }

    /**
     * Update: one frame of keyboard handling, in the order the source tests
     * the keys: number keys, then Enter (submit), then C (clear).
     */
    method Update(keys: set<int>, submitKey: bool, clearKey: bool, gm: GameManager?, d: Draw)
      requires HighestPressed(keys, KeyLimit(|availableColors|)).Some? ==> paint != null
      requires ValidDraw(d)
      requires gm != null ==> gm.Valid()
      requires paint != null ==> paint.Valid()
      modifies this`currentColor, this`currentSubmission, paint
      modifies if gm != null then {gm, gm.currentNPC} else {}
      modifies if paint != null then {paint.texture} else {}
      ensures currentColor == SelectedColor(availableColors, keys, old(currentColor))
      ensures paint != null ==> paint.paintColor == SelectedColor(availableColors, keys, old(paint.paintColor))
      ensures paint != null ==> paint.texture == old(paint.texture) && paint.Valid()
      ensures paint != null ==> paint.brushSize == old(paint.brushSize)
      ensures paint != null ==> paint.isPainting == old(paint.isPainting) && paint.isErasing == old(paint.isErasing)
                                && paint.previousColor == old(paint.previousColor)
      ensures currentSubmission == if submitKey then Some(PlaceholderSubmission(currentColor))
                                   else old(currentSubmission)
      ensures gm != null && !submitKey ==> gm.State() == old(gm.State())
      ensures gm != null && submitKey && old(Accepts(gm)) ==>
                gm.State() == Submitted(gm.settings, old(gm.State()),
                                        old(gm.isGameActive) && gm.currentNPC != null
                                        && CompareWithSubmission(old(gm.currentNPC.currentAttributes).value,
                                                                 PlaceholderSubmission(currentColor)))
      ensures gm != null && submitKey && old(Accepts(gm)) && old(gm.isGameActive) ==> gm.CustomerDrawn(d)
      ensures gm != null && submitKey && !old(Accepts(gm)) ==> gm.State() == old(gm.State())
      ensures gm != null && (!submitKey || !old(gm.isGameActive)) && gm.currentNPC != null ==>
                gm.currentNPC.currentAttributes == old(gm.currentNPC.currentAttributes)
      ensures (submitKey && old(Accepts(gm))) || clearKey ==>
                paint != null && paint.texture != null ==>
                forall x, y :: paint.InBounds(x, y) ==> paint.texture[x, y] == White
      ensures !clearKey && !(submitKey && old(Accepts(gm))) && paint != null && paint.texture != null ==>
                forall x, y :: paint.InBounds(x, y) ==> paint.texture[x, y] == old(paint.texture[x, y])
    {
      SelectColorByKey(keys);
      if submitKey {
        SubmitPainting(gm, d);
      }
      if clearKey {
        ClearCanvas();
      }
    }

    /** ClearCanvas: hand over to the canvas, when there is one. */
    method ClearCanvas()
      requires paint != null ==> paint.Valid()
      modifies if paint != null then {paint.texture} else {}
      ensures paint != null && paint.texture != null ==>
                forall x, y :: paint.InBounds(x, y) ==> paint.texture[x, y] == White
    {
      if paint != null {
        paint.ClearCanvas();
      }
    }

    /**
     * Whether the game manager's SubmitPainting runs to its end: it throws
     * on an active game with no NPC to compare with.
     */
    ghost predicate Accepts(gm: GameManager?)
      reads gm
    {
      gm == null || !(gm.isGameActive && gm.currentNPC == null)
    }

    /**
     * SubmitPainting: build the placeholder submission, forward it to the
     * game manager (if there is one), then clear the canvas. When the game
     * manager throws, the surrounding try/catch skips the clearing.
     */
    method SubmitPainting(gm: GameManager?, d: Draw)
      requires ValidDraw(d)
      requires gm != null ==> gm.Valid()
      requires paint != null ==> paint.Valid()
      modifies this`currentSubmission
      modifies if gm != null then {gm, gm.currentNPC} else {}
      modifies if paint != null then {paint.texture} else {}
      ensures currentSubmission == Some(PlaceholderSubmission(currentColor))
      ensures gm != null ==> gm.Valid()
      ensures gm != null && old(Accepts(gm)) ==>
                gm.State() == Submitted(gm.settings, old(gm.State()),
                                        old(gm.isGameActive) && gm.currentNPC != null
                                        && CompareWithSubmission(old(gm.currentNPC.currentAttributes).value,
                                                                 PlaceholderSubmission(currentColor)))
      ensures gm != null && !old(Accepts(gm)) ==> gm.State() == old(gm.State())
      ensures gm != null && old(Accepts(gm)) && old(gm.isGameActive) ==> gm.CustomerDrawn(d)
      ensures gm != null && !old(gm.isGameActive) && gm.currentNPC != null ==>
                gm.currentNPC.currentAttributes == old(gm.currentNPC.currentAttributes)
      ensures old(Accepts(gm)) && paint != null && paint.texture != null ==>
                forall x, y :: paint.InBounds(x, y) ==> paint.texture[x, y] == White
      ensures !old(Accepts(gm)) && paint != null && paint.texture != null ==>
                forall x, y :: paint.InBounds(x, y) ==> paint.texture[x, y] == old(paint.texture[x, y])
    {
      currentSubmission := Some(PlaceholderSubmission(currentColor));
      var completed := true;
      if gm != null {
        completed := gm.SubmitPainting(currentSubmission.value, d);
      }
      if completed {
        ClearCanvas();
      }
    }

    /** SetBrushSize: clamp to [0.1, 2]. */
    method SetBrushSize(size: real)
      modifies this`brushSize
      ensures 0.1 <= brushSize <= 2.0
      ensures brushSize == ClampReal(size, 0.1, 2.0)
      ensures 0.1 <= size <= 2.0 ==> brushSize == size
    {
      brushSize := ClampReal(size, 0.1, 2.0);
    }

    /** SetColor: the colour becomes current here and on the canvas. */
    method SetColor(color: Color)
      requires paint != null
      modifies this`currentColor, paint`paintColor
      ensures currentColor == color && paint.paintColor == color
    {
      currentColor := color;
      paint.paintColor := currentColor;
    }
  }
}
