# TooMuchPaint: a verified model of the game logic

TooMuchPaint is a small Unity mini-game. Customers (NPCs) arrive wanting a
portrait with a given emotion, hair colour, eye colour and accessory. The
player paints on a pixel canvas, picks colours with the number keys and
submits. A paint meter drains over time. A good match refills it and
scores 100 points. A mistake or a timeout costs paint. The game ends when
the paint runs out. An intro dialogue types its lines out one character
at a time.

This project models the game's five scripts in Dafny, one module each,
plus a small `Engine` module (`engine.dfy`) for the Unity pieces they use:
`Color`, `Mathf.Clamp`, `Mathf.Min` and `Mathf.RoundToInt`.

- `Paint` (`paint_script.dfy`): the canvas `PaintScript`.
  - The texture is an `array2<Color>` that `DrawCircle` updates in place from its nested loops.
  - `DrawCircle` is proved to paint exactly the half-open, lopsided footprint `[-r, r) x [-r, r)` within radius `r`, clipped to the buffer, and nothing else.
  - `ClearCanvas` fills a flat buffer in a loop and copies it in.
  - `Update` models the mouse-driven paint/erase flags and the save/restore of the paint colour while erasing.
- `Game` (`game_manager.dfy`): the round and score state machine of `GameManager`.
  - Each method is proved to move the class's state exactly as a pure transition function on `RoundState` does.
  - Lemmas over event sequences show three things. For any settings, the score stays a non-negative multiple of 100. With non-negative settings, paint never exceeds the maximum and the timer never exceeds the time per customer. An inactive game is inert.
- `Npc` (`npc_controller.dfy`): `NPCController`.
  - Random generation becomes a `Draw` parameter.
  - Colour closeness is the RGBA Euclidean distance, compared squared.
  - The submission comparison is a four-way conjunction.
  - Colour naming is a first-match decision list, proved equal to a table of disjoint regions.
- `Player` (`player_controller.dfy`): `PlayerController`.
  - Number-key colour selection: the loop's last pressed key wins.
  - Brush size clamp.
  - The submission record with fixed placeholder fields, forwarded to the game manager. The canvas is cleared unless the game manager throws.
  - A lemma shows which customers such a submission can ever satisfy.
- `Dialogue` (`text_bubble.dfy`): `TextBubbleScript`.
  - The typewriter coroutine is an explicit state. `Resume` is one wake-up that shows one more character.
  - The key-press branch of `Update` first skips the rest of the line being typed, then advances to the next line.
  - A bound shows that repeated presses reach the main scene.

## Model

| member | source | states |
|---|---|---|
| Engine.ClampInt | Assets/Scripts/PaintScript.cs:166 | Mathf.Clamp on ints: result in [lo, hi], identity inside, lo below, hi above |
| Engine.ClampReal | Assets/Scripts/PlayerController.cs:149 | Mathf.Clamp on floats: result in [lo, hi], identity inside, lo below, hi above |
| Engine.MinInt | Assets/Scripts/PlayerController.cs:58 | Mathf.Min: not above either argument and equal to one of them |
| Engine.MinReal | Assets/Scripts/GameManager.cs:113 | Mathf.Min on floats: not above either argument and equal to one of them |
| Engine.RoundToInt | Assets/Scripts/PaintScript.cs:166 | Mathf.RoundToInt: within 0.5 of the input, an exact half goes to the even neighbour, an integer stays itself |
| Paint.NextFlag | Assets/Scripts/PaintScript.cs:35-46 | a button's flag: true on press, kept while held or idle, false on a release that is not also held |
| Paint.NextPaintColor | Assets/Scripts/PaintScript.cs:47-61 | right press gives white, right release gives the saved colour, otherwise the colour is kept |
| Paint.SaveRestore | Assets/Scripts/PaintScript.cs:47-61 | the colour saved by a right press is the one a right release gives back, whatever colour was chosen in between |
| Paint.FootprintOutside | Assets/Scripts/PaintScript.cs:114-125 | a centre whose footprint box lies beyond one edge of the buffer covers no pixel of it |
| Paint.FootprintLopsided | Assets/Scripts/PaintScript.cs:114-118 | offsets -r are in the footprint, offsets +r in either axis never are |
| Paint.PaintScript.constructor | Assets/Scripts/PaintScript.cs:10-21 | the field initialisers: brush 10, red, no texture, both flags off |
| Paint.PaintScript.Start | Assets/Scripts/PaintScript.cs:24-32 | a fresh texture of the configured size, all white, other fields unchanged |
| Paint.PaintScript.DrawCircle | Assets/Scripts/PaintScript.cs:111-129 | every in-bounds pixel is paintColor if its offset from the centre is in the half-open footprint, and otherwise unchanged |
| Paint.PaintScript.SetPixels | Assets/Scripts/PaintScript.cs:147 | pixel (x, y) takes element y*width + x of the flat buffer, which is in range |
| Paint.PaintScript.ClearCanvas | Assets/Scripts/PaintScript.cs:131-160 | with a texture every pixel becomes white; without one nothing is modified |
| Paint.PaintScript.BrushSlider | Assets/Scripts/PaintScript.cs:164-167 | brushSize is in [1, 100], is the clamped rounded input, and an in-range integer is stored unchanged |
| Paint.PaintScript.Update | Assets/Scripts/PaintScript.cs:33-84 | flags and colours move as NextFlag/NextPaintColor/NextPreviousColor, each flag on its own button; the texture is stamped with the one new paintColor at the one centre exactly when a flag is set |
| Paint.FlatIndexInRange | Assets/Scripts/PaintScript.cs:138-147 | every pixel's flat index lies inside a width*height buffer |
| Paint.EraseGestureRestoresColor | Assets/Scripts/PaintScript.cs:47-61 | press right, change the colour, release right: the paint colour is the one from before the press and erasing is off |
| Npc.Generate | Assets/Scripts/NPCController.cs:42-54 | emotion and accessory come from the two option lists, colours are opaque and in the unit cube, index 0 gives exactly "Happy" / "None" |
| Npc.NPCController.constructor | Assets/Scripts/NPCController.cs:24 | no customer before the first generation |
| Npc.NPCController.GenerateRandomAttributes | Assets/Scripts/NPCController.cs:37-67 | the attributes become those of the draw, with emotion and accessory from the option lists |
| Npc.SquaredDistance | Assets/Scripts/NPCController.cs:124 | the squared RGBA distance is non-negative and zero for equal colours |
| Npc.ColorsAreClose | Assets/Scripts/NPCController.cs:122-125 | close needs a positive threshold, a colour is close to itself iff the threshold is positive, and close bounds every channel's difference by the threshold |
| Npc.ColorsAreCloseSymmetric | Assets/Scripts/NPCController.cs:122-125 | closeness is symmetric in the two colours |
| Npc.CompareWithSubmission | Assets/Scripts/NPCController.cs:110-120 | a match iff same emotion, same accessory, and hair and eye squared distances below 0.2 squared |
| Npc.IdenticalSubmissionMatches | Assets/Scripts/NPCController.cs:110-125 | a submission equal to the wanted attributes always matches |
| Npc.DiscreteMismatch | Assets/Scripts/NPCController.cs:113-119 | a different emotion or accessory never matches, whatever the colours |
| Npc.MatchBoundsChannels | Assets/Scripts/NPCController.cs:113-119 | a match keeps every RGB channel of hair and eyes within 0.2 |
| Npc.FirstRegion | Assets/Scripts/NPCController.cs:130-137 | the first region from an index on that contains the colour, or none contains it |
| Npc.ColorToName | Assets/Scripts/NPCController.cs:127-139 | the name is one of the nine listed names |
| Npc.ColorToNameIsFirstMatch | Assets/Scripts/NPCController.cs:130-138 | the if-chain names the first matching region of the table, or "Custom Color" when none matches |
| Npc.RegionsDisjoint | Assets/Scripts/NPCController.cs:130-137 | no colour lies in two regions of the table |
| Npc.ColorToNameExamples | Assets/Scripts/NPCController.cs:130-138 | black, white, red and Unity's yellow get their names; mid grey is "Custom Color" |
| Game.DefaultSettingsSane | Assets/Scripts/GameManager.cs:20-24 | the declared settings are non-negative, and a game with them starts on 50 paint and 60 seconds |
| Game.Spawned | Assets/Scripts/GameManager.cs:90-101 | only the timer changes, to the time per customer |
| Game.Started | Assets/Scripts/GameManager.cs:77-88 | active, score 0, half the maximum paint, a full timer |
| Game.Ended | Assets/Scripts/GameManager.cs:140-145 | inactive, with paint, time and score untouched |
| Game.Rejected | Assets/Scripts/GameManager.cs:127-132 | half the penalty off the paint, a full timer, score and activity untouched |
| Game.Ticked | Assets/Scripts/GameManager.cs:53-75 | inactive is unchanged; the score never changes; an active tick drains paint and time, then empty paint ends the game before an expired timer rejects the customer |
| Game.Submitted | Assets/Scripts/GameManager.cs:103-125 | inactive is unchanged; active stays active with a full timer; a match adds exactly 100 points and caps the paint at the maximum; a mismatch costs the penalty and no points |
| Game.StepKeepsBounded | Assets/Scripts/GameManager.cs:77-145 | with non-negative settings every call keeps the score a non-negative multiple of 100, paint at most the maximum and time at most the time per customer |
| Game.RunKeepsScore | Assets/Scripts/GameManager.cs:77-145 | for any settings, after any sequence of calls the score is still a non-negative multiple of 100 |
| Game.RunKeepsBounded | Assets/Scripts/GameManager.cs:77-145 | the same bounds hold after any sequence of calls |
| Game.ReachableBounded | Assets/Scripts/GameManager.cs:31-34 | every state reached from the initial fields is bounded |
| Game.ScoreFrozenWhileInactive | Assets/Scripts/GameManager.cs:140-145 | after the game ends, no call but StartGame changes the score or reactivates the game |
| Game.InactiveIsInert | Assets/Scripts/GameManager.cs:53-125 | ticks, submissions and GameOver leave an inactive game exactly as it was |
| Game.TickEndsOnlyOnEmptyPaint | Assets/Scripts/GameManager.cs:66-74 | a tick ends an active game only when the drained paint is at most 0 |
| Game.GameManager.constructor | Assets/Scripts/GameManager.cs:20-34 | the given settings and NPC, all state fields at their defaults |
| Game.GameManager.SpawnNewCustomer | Assets/Scripts/GameManager.cs:90-101 | state moves as Spawned; an NPC that is present gets the drawn customer |
| Game.GameManager.StartGame | Assets/Scripts/GameManager.cs:77-88 | state becomes Started, and a new customer is drawn |
| Game.GameManager.CustomerRejected | Assets/Scripts/GameManager.cs:127-132 | state moves as Rejected, and a new customer is drawn |
| Game.GameManager.GameOver | Assets/Scripts/GameManager.cs:140-145 | state moves as Ended |
| Game.GameManager.Update | Assets/Scripts/GameManager.cs:53-75 | state moves as Ticked; the customer is redrawn exactly when the frame rejects it |
| Game.GameManager.SubmitPainting | Assets/Scripts/GameManager.cs:103-125 | an active game with no NPC throws before changing anything; otherwise state moves as Submitted with the NPC's verdict, and an active game draws the next customer |
| Player.OnlyHappyPlainCustomersMatch | Assets/Scripts/PlayerController.cs:114-120 | a placeholder submission matches only a "Happy" customer with accessory "None" |
| Player.MatchableDraws | Assets/Scripts/PlayerController.cs:114-120 | of all generated customers, exactly those with emotion and accessory index 0 whose hair and eyes are both close to the current colour can be matched |
| Player.DefaultPaletteKeys | Assets/Scripts/PlayerController.cs:18-25 | with the declared five-colour palette, five keys select a colour and each colour gets its own name |
| Player.KeyLimit | Assets/Scripts/PlayerController.cs:58 | the number of selecting keys is the palette size, capped at nine |
| Player.HighestPressed | Assets/Scripts/PlayerController.cs:58-66 | the highest pressed key index below the limit, or none is pressed |
| Player.SelectedColor | Assets/Scripts/PlayerController.cs:58-66 | no key pressed keeps the colour; otherwise the colour is the palette entry of a pressed key with no pressed key above it |
| Player.PlayerController.constructor | Assets/Scripts/PlayerController.cs:13-33 | the field initialisers: brush 0.1, red, no submission |
| Player.PlayerController.Start | Assets/Scripts/PlayerController.cs:36-50 | a non-empty palette makes its first colour current here and on the canvas; an empty one changes nothing; no other canvas field changes |
| Player.PlayerController.SelectColorByKey | Assets/Scripts/PlayerController.cs:57-66 | both the current colour and the canvas paint colour become SelectedColor of the keys; no other canvas field changes |
| Player.PlayerController.Update | Assets/Scripts/PlayerController.cs:54-79 | colour selection as SelectedColor, then a submission on Enter, then a clear on C; the game manager's state moves as Submitted and an active game draws the next customer; a submission that throws leaves the game manager unchanged; without Enter, or with an inactive game, the customer is unchanged; the canvas ends white after a clear or an accepted submission and keeps every pixel otherwise; only the canvas paint colour and pixels change |
| Player.PlayerController.ClearCanvas | Assets/Scripts/PlayerController.cs:84-105 | a present canvas with a texture ends all white |
| Player.PlayerController.SubmitPainting | Assets/Scripts/PlayerController.cs:107-145 | the submission is the placeholder record; the game manager's state moves as Submitted and an active game draws the next customer, while an inactive game keeps its customer; the canvas ends white unless the game manager threw, in which case it is unchanged |
| Player.PlayerController.SetBrushSize | Assets/Scripts/PlayerController.cs:147-150 | brushSize is in [0.1, 2] and an in-range input is stored unchanged |
| Player.PlayerController.SetColor | Assets/Scripts/PlayerController.cs:152-156 | the colour becomes current here and on the canvas |
| Dialogue.TextBubbleScript.constructor | Assets/Scripts/TextBubbleScript.cs:10-14 | the given lines, at line 0, not typing |
| Dialogue.TextBubbleScript.StartShowText | Assets/Scripts/TextBubbleScript.cs:50-57 | typing the current line begins with its first character shown; an empty line finishes at once with empty text |
| Dialogue.TextBubbleScript.Resume | Assets/Scripts/TextBubbleScript.cs:54-59 | one wake-up appends exactly the next character of the line, or, with the line complete, ends typing |
| Dialogue.TextBubbleScript.FinishShowText | Assets/Scripts/TextBubbleScript.cs:50-60 | running the coroutine to its end shows exactly the whole line and clears isTyping |
| Dialogue.TextBubbleScript.Start | Assets/Scripts/TextBubbleScript.cs:16-22 | typing of line 0 starts only when there are lines; an empty first line leaves the text empty |
| Dialogue.TextBubbleScript.OnKeyDown | Assets/Scripts/TextBubbleScript.cs:24-49 | while typing: the whole line shown, typing stopped, textCount kept; otherwise textCount + 1, then the next line starts (an empty one leaving the text empty) or the main scene is requested; textCount never decreases |
| Dialogue.TextBubbleScript.PressesLeft | Assets/Scripts/TextBubbleScript.cs:24-47 | at most two presses per remaining line plus one are needed |
| Dialogue.TextBubbleScript.PressUntilScene | Assets/Scripts/TextBubbleScript.cs:24-47 | repeated key presses request the main scene within PressesLeft presses |

## Left out

- Unity lifecycle, rendering and UI are not modelled. This covers `Awake` and `Start` wiring, `GetComponent`, `FindFirstObjectByType`, `SetActive`, `texture.Apply`, the paint meter, the timer and score texts, `ShowAttributes`, `HideAttributes`, sprite enabling and `Debug.Log`. None of them changes game state.
- Assets/Scripts/UIManager.cs and Assets/Scripts/ColorPicker.cs are not part of this model. They are widget wiring, button listeners and texture lookups.
- Floats are modelled as mathematical reals. The literals 0.2f and 0.8f are taken as the exact reals 0.2 and 0.8, and float rounding is not modelled.
- `Vector4.Distance` takes a square root. The model compares the squared distance with the squared threshold, which gives the same verdict for a non-negative distance.
- Mapping the mouse position to a pixel is not modelled, because it uses float screen conversions and a truncating cast. The stamp centre is an integer parameter of `PaintScript.Update`.
- Randomness is passed in. `Random.Range` and `Random.value` become a `Draw` parameter holding the chosen indices and colour channels.
- `TextBubbleScript.delay`, `WaitForSeconds` and coroutine scheduling are not modelled. The coroutine is an explicit state, and `Resume` is one wake-up.
- Dialogue.TextBubbleScript.Resume: characters are Unicode scalar values here. The source steps over UTF-16 code units. A line with a character outside the Basic Multilingual Plane, such as an emoji, takes one more step in the source than in the model, and the source briefly shows half of a surrogate pair.
- `SceneManager.LoadScene` becomes the flag `sceneRequested`.
- The `GameManager.Instance` singleton, `Destroy` and `QuitGame` are left out. The game manager is passed as a possibly-null reference.
- Game.GameManager: the score has no 32-bit wrap-around. Wrapping would need over 21 million matches.
- Paint.PaintScript: `textureWidth` and `textureHeight` are constants here. In the source they are public fields that `DrawCircle` and `ClearCanvas` read on every call. Changing them after `Start` would make them disagree with the texture, and that case is not modelled.
- Paint.PaintScript.DrawCircle: the 32-bit overflow of `brushSize * brushSize` is not modelled. `BrushSlider` keeps the brush within [1, 100], but the field is public.
- Engine.RoundToInt: the overflow of the int conversion for huge inputs is not modelled.
- Some references are dereferenced without a null check. These are `paint` in the number-key loop and in `SetColor`, `texture` in `DrawCircle`, and `currentNPC.currentAttributes` during an active game. They are preconditions, or part of a `Valid` invariant, rather than modelled exceptions. The one exception whose effect the source relies on, in `SubmitPainting`, is modelled.
- The submission's fields can never be null here, because the model's strings are values.
- The try/catch blocks in `ClearCanvas` and `GenerateRandomAttributes` catch nothing the model can raise, so they add no behaviour.
- Paint.PaintScript.Update: only stamping with a non-null texture is modelled. A frame that sets a flag before `Start` created the texture is excluded by a precondition. The source would throw there.
